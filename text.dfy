/** String operations the generator relies on: joining with a separator,
    splitting, character replacement (`string.Replace` with a one-character
    pattern), `TrimEnd` of one character, the escaping of a C# verbatim string
    literal and the decimal rendering of an `int`. */
module Text {
  import opened Wrappers

  /** `xs` with `sep` between neighbours, and nowhere else. Defined from the
      back, in the order a writer appends the pieces. */
  function Join(xs: seq<string>, sep: string): string
  {
    if |xs| == 0 then ""
    else if |xs| == 1 then xs[0]
    else Join(xs[..|xs| - 1], sep) + sep + xs[|xs| - 1]
  }

  /** Join seen from the front. */
  lemma {:induction false} JoinCons(x: string, xs: seq<string>, sep: string)
    requires |xs| > 0
    ensures Join([x] + xs, sep) == x + sep + Join(xs, sep)
  {
    if |xs| == 1 {
      assert ([x] + xs)[..1] == [x];
    } else {
      var ys := xs[..|xs| - 1];
      assert ([x] + xs)[..|xs|] == [x] + ys;
      JoinCons(x, ys, sep);
    }
  }

  lemma ConcatAssoc(a: string, b: string, c: string)
    ensures a + b + c == a + (b + c)
  {
  }

  /** Appending one more element adds exactly one separator. */
  lemma JoinSnoc(xs: seq<string>, x: string, sep: string)
    ensures Join(xs + [x], sep) == if xs == [] then x else Join(xs, sep) + sep + x
  {
    assert (xs + [x])[..|xs|] == xs;
  }

  /** Every character of a joined string comes from an element or a separator. */
  lemma {:induction false} JoinChars(xs: seq<string>, sep: string, c: char)
    requires c !in sep
    requires forall i :: 0 <= i < |xs| ==> c !in xs[i]
    ensures c !in Join(xs, sep)
  {
    if |xs| > 1 {
      JoinChars(xs[..|xs| - 1], sep, c);
    }
  }

  /** Every character that appears in some element or separator. */
  lemma {:induction false} JoinHasChar(xs: seq<string>, sep: string, c: char)
    requires |xs| > 0 && c in xs[|xs| - 1]
    ensures c in Join(xs, sep)
  {
  }

  /** `s` cut at every occurrence of `c`; there is always at least one part. */
  function Split(s: string, c: char): (parts: seq<string>)
    ensures |parts| >= 1
  {
    if s == [] then [""]
    else
      var rest := Split(s[1..], c);
      if s[0] == c then [""] + rest
      else [[s[0]] + rest[0]] + rest[1..]
  }

  lemma {:induction false} SplitNoSeparator(a: string, c: char)
    requires c !in a
    ensures Split(a, c) == [a]
  {
    if a != [] {
      SplitNoSeparator(a[1..], c);
      assert [a[0]] + a[1..] == a;
    }
  }

  lemma {:induction false} SplitAppend(a: string, b: string, c: char)
    requires c !in a
    ensures Split(a + [c] + b, c) == [a] + Split(b, c)
  {
    var s := a + [c] + b;
    if a == [] {
      assert s[1..] == b;
    } else {
      assert s[1..] == a[1..] + [c] + b;
      SplitAppend(a[1..], b, c);
      assert [a[0]] + a[1..] == a;
    }
  }

  /** Splitting at a separator splits the parts on either side of it apart. */
  lemma {:induction false} SplitConcat(a: string, b: string, c: char)
    ensures Split(a + [c] + b, c) == Split(a, c) + Split(b, c)
  {
    var s := a + [c] + b;
    if a == [] {
      assert s[1..] == b;
    } else {
      assert s[1..] == a[1..] + [c] + b;
      SplitConcat(a[1..], b, c);
    }
  }

  /** Splitting a joined list at its one-character separator gives the list back,
      as long as no element contains the separator. */
  lemma {:induction false} SplitJoin(xs: seq<string>, c: char)
    requires |xs| > 0
    requires forall i :: 0 <= i < |xs| ==> c !in xs[i]
    ensures Split(Join(xs, [c]), c) == xs
  {
    if |xs| == 1 {
      SplitNoSeparator(xs[0], c);
    } else {
      var ys := xs[1..];
      assert xs == [xs[0]] + ys;
      JoinCons(xs[0], ys, [c]);
      SplitJoin(ys, c);
      SplitAppend(xs[0], Join(ys, [c]), c);
    }
  }

  /** The parts of every element of `xs` cut at `c`, in order. */
  function SplitAll(xs: seq<string>, c: char): seq<string>
  {
    if xs == [] then [] else SplitAll(xs[..|xs| - 1], c) + Split(xs[|xs| - 1], c)
  }

  /** Splitting a joined list at its separator gives the parts of its elements,
      whatever the elements contain. */
  lemma {:induction false} SplitJoinAll(xs: seq<string>, c: char)
    requires |xs| > 0
    ensures Split(Join(xs, [c]), c) == SplitAll(xs, c)
  {
    if |xs| == 1 {
      assert xs[..0] == [];
    } else {
      var init := xs[..|xs| - 1];
      SplitJoinAll(init, c);
      SplitConcat(Join(init, [c]), xs[|xs| - 1], c);
    }
  }

  /** Every `c` in `s` replaced by `r` (C#'s `Replace` with a one-character old value). */
  function ReplaceChar(s: string, c: char, r: string): string
  {
    if s == [] then "" else (if s[0] == c then r else [s[0]]) + ReplaceChar(s[1..], c, r)
  }

  /** A character of the result is a character of `s` other than `c`, or one of `r`. */
  lemma {:induction false} ReplaceCharChars(s: string, c: char, r: string, d: char)
    requires d in ReplaceChar(s, c, r)
    ensures (d in s && d != c) || d in r
  {
    if s != [] {
      var head := if s[0] == c then r else [s[0]];
      if d !in head {
        assert d in ReplaceChar(s[1..], c, r);
        ReplaceCharChars(s[1..], c, r, d);
      }
    }
  }

  lemma {:induction false} ReplaceCharAppend(a: string, b: string, c: char, r: string)
    ensures ReplaceChar(a + b, c, r) == ReplaceChar(a, c, r) + ReplaceChar(b, c, r)
  {
    if a == [] {
      assert a + b == b;
    } else {
      assert (a + b)[1..] == a[1..] + b;
      ReplaceCharAppend(a[1..], b, c, r);
    }
  }

  /** The escaping of a verbatim literal `@"..."`: every `"` is doubled. */
  function DoubleQuotes(s: string): string
  {
    ReplaceChar(s, '"', "\"\"")
  }

  /** The string a verbatim literal's body denotes: `""` stands for `"`, and a
      lone `"` would end the literal early, so the body is rejected. */
  function Unverbatim(body: string): Option<string>
  {
    if body == [] then Some("")
    else if body[0] == '"' then
      if |body| >= 2 && body[1] == '"' then
        match Unverbatim(body[2..])
        case None => None
        case Some(t) => Some("\"" + t)
      else None
    else
      match Unverbatim(body[1..])
      case None => None
      case Some(t) => Some([body[0]] + t)
  }

  /** Doubling the quotes and reading the literal back is the identity. */
  lemma {:induction false} UnverbatimDoubleQuotes(s: string)
    ensures Unverbatim(DoubleQuotes(s)) == Some(s)
  {
    if s != [] {
      UnverbatimDoubleQuotes(s[1..]);
      var rest := DoubleQuotes(s[1..]);
      assert DoubleQuotes(s) == (if s[0] == '"' then "\"\"" else [s[0]]) + rest;
      if s[0] == '"' {
        assert DoubleQuotes(s)[2..] == rest;
      } else {
        assert DoubleQuotes(s)[1..] == rest;
      }
      assert s == [s[0]] + s[1..];
    }
  }

  /** A body without quotes denotes itself. */
  lemma {:induction false} UnverbatimPlain(s: string)
    requires '"' !in s
    ensures Unverbatim(s) == Some(s)
  {
    if s != [] {
      UnverbatimPlain(s[1..]);
      assert s == [s[0]] + s[1..];
    }
  }

  /** Two well-formed bodies written one after the other denote the concatenation. */
  lemma {:induction false} UnverbatimAppend(a: string, b: string, x: string, y: string)
    requires Unverbatim(a) == Some(x) && Unverbatim(b) == Some(y)
    ensures Unverbatim(a + b) == Some(x + y)
    decreases |a|, 1
  {
    if a == [] {
      assert a + b == b && x + y == y;
    } else if a[0] == '"' {
      UnverbatimAppendQuote(a, b, x, y);
    } else {
      UnverbatimAppendPlain(a, b, x, y);
    }
  }

  lemma {:induction false} UnverbatimAppendQuote(a: string, b: string, x: string, y: string)
    requires a != [] && a[0] == '"'
    requires Unverbatim(a) == Some(x) && Unverbatim(b) == Some(y)
    ensures Unverbatim(a + b) == Some(x + y)
    decreases |a|, 0
  {
    assert |a| >= 2 && a[1] == '"' && Unverbatim(a[2..]).Some?;
    var rest := a[2..];
    var t := Unverbatim(rest).value;
    UnverbatimQuote(a, t);
    UnverbatimAppend(rest, b, t, y);
    var ab := a + b;
    assert ab[0] == '"' && ab[1] == '"' && ab[2..] == rest + b;
    UnverbatimQuote(ab, t + y);
    ConcatAssoc("\"", t, y);
  }

  /** A doubled quote at the front stands for one quote. */
  lemma UnverbatimQuote(s: string, t: string)
    requires |s| >= 2 && s[0] == '"' && s[1] == '"' && Unverbatim(s[2..]) == Some(t)
    ensures Unverbatim(s) == Some("\"" + t)
  {
  }

  lemma {:induction false} UnverbatimAppendPlain(a: string, b: string, x: string, y: string)
    requires a != [] && a[0] != '"'
    requires Unverbatim(a) == Some(x) && Unverbatim(b) == Some(y)
    ensures Unverbatim(a + b) == Some(x + y)
    decreases |a|, 0
  {
    assert Unverbatim(a[1..]).Some?;
    var rest := a[1..];
    var t := Unverbatim(rest).value;
    UnverbatimChar(a, t);
    UnverbatimAppend(rest, b, t, y);
    var ab := a + b;
    assert ab[0] == a[0] && ab[1..] == rest + b;
    UnverbatimChar(ab, t + y);
    ConcatAssoc([a[0]], t, y);
  }

  /** Any other character stands for itself. */
  lemma UnverbatimChar(s: string, t: string)
    requires |s| >= 1 && s[0] != '"' && Unverbatim(s[1..]) == Some(t)
    ensures Unverbatim(s) == Some([s[0]] + t)
  {
  }

  /** `s.TrimEnd(c)`: every trailing `c` removed. */
  function TrimEnd(s: string, c: char): (r: string)
    ensures |r| <= |s| && r == s[..|r|]
    ensures r == [] || r[|r| - 1] != c
    ensures forall i :: |r| <= i < |s| ==> s[i] == c
  {
    if s != [] && s[|s| - 1] == c then TrimEnd(s[..|s| - 1], c) else s
  }

  function DigitChar(d: nat): char
    requires d < 10
  {
    "0123456789"[d]
  }

  /** Decimal digits of `n`, most significant first, without leading zeros. */
  function NatToString(n: nat): (s: string)
    ensures |s| > 0
  {
    if n < 10 then [DigitChar(n)] else NatToString(n / 10) + [DigitChar(n % 10)]
  }

  lemma {:induction false} NatToStringDigits(n: nat)
    ensures forall i :: 0 <= i < |NatToString(n)| ==> '0' <= NatToString(n)[i] <= '9'
  {
    if n >= 10 {
      NatToStringDigits(n / 10);
    }
  }

  /** An `int` as an interpolated string shows it: a `-` sign, then the digits. */
  function IntToString(n: int): string
  {
    if n < 0 then "-" + NatToString(-n) else NatToString(n)
  }

  /** The rendering of an `int` is never empty and holds neither a quote nor a dot. */
  lemma IntToStringChars(n: int)
    ensures |IntToString(n)| > 0 && '"' !in IntToString(n) && '.' !in IntToString(n)
  {
    NatToStringDigits(if n < 0 then -n else n);
  }
}
