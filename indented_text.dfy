/** The indented text writer the generator writes into. Indentation is kept
    as a level: the writer puts the current level's indentation in front of a
    line when the first text of that line arrives, so a line's level is the
    level in force at that moment, whatever happens to the level later on the
    same line. */
module IndentedText {

  /** One line of output: its indentation level and the text written on it. */
  datatype Line = Line(indent: nat, text: string)

  /** `l` with `s` written at its end. */
  function Extend(l: Line, s: string): Line
  {
    Line(l.indent, l.text + s)
  }

  lemma ExtendTwice(l: Line, a: string, b: string)
    ensures Extend(Extend(l, a), b) == Extend(l, a + b)
  {
    assert l.text + a + b == l.text + (a + b);
  }

  lemma ExtendEmpty(l: Line)
    ensures Extend(l, "") == l
  {
    assert l.text + "" == l.text;
  }

  lemma ExtendBlank(level: nat, s: string)
    ensures Extend(Line(level, ""), s) == Line(level, s)
  {
    assert "" + s == s;
  }

  class IndentedWriter {
    /** The lines ended so far, in order. */
    var lines: seq<Line>
    /** The line being written. */
    var cur: Line
    /** True when nothing has been written since the last line end, so the
        next line's indentation is not yet fixed. */
    var pending: bool
    /** The indentation level; decreasing it below zero leaves it at zero. */
    var indent: nat

    constructor ()
      ensures lines == [] && cur == Line(0, "") && !pending && indent == 0
    {
      lines := [];
      cur := Line(0, "");
      pending := false;
      indent := 0;
    }

    /** The line a write continues, were the level `level` at that moment. */
    function Current(level: nat): Line
      reads this
    {
      if pending then Line(level, "") else cur
    }

    method Write(s: string)
      modifies this
      ensures lines == old(lines) && indent == old(indent)
      ensures cur == Extend(old(Current(indent)), s) && !pending
    {
      cur := Extend(Current(indent), s);
      pending := false;
    }

    method WriteLine(s: string)
      modifies this
      ensures lines == old(lines) + [Extend(old(Current(indent)), s)]
      ensures pending && indent == old(indent)
    {
      lines := lines + [Extend(Current(indent), s)];
      cur := Line(indent, "");
      pending := true;
    }

    /** Ends the current line without writing text on it. */
    method EndLine()
      modifies this
      ensures lines == old(lines) + [old(Current(indent))]
      ensures pending && indent == old(indent)
    {
      lines := lines + [Current(indent)];
      cur := Line(indent, "");
      pending := true;
    }

    method IncreaseIndent()
      modifies this
      ensures indent == old(indent) + 1
      ensures lines == old(lines) && cur == old(cur) && pending == old(pending)
    {
      indent := indent + 1;
    }

    method DecreaseIndent()
      modifies this
      ensures indent == if old(indent) == 0 then 0 else old(indent) - 1
      ensures lines == old(lines) && cur == old(cur) && pending == old(pending)
    {
      indent := if indent == 0 then 0 else indent - 1;
    }
  }
}
