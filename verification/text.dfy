/** Python values the generator handles, and the line structure of the text it emits.

    Registry records and catalog entries carry strings that may be `None`; the
    generator tests them for truthiness (`if s:`), so a missing and an empty
    string behave alike. The rendered document is plain text, and its shape is
    described here by the list of its lines.
 */
module Text {

  /** A value that may be Python's `None`. */
  datatype Option<+T> = None | Some(value: T)

  /** Python truthiness of an optional string: neither `None` nor empty. */
  predicate Truthy(s: Option<string>) {
    s.Some? && s.value != ""
  }

  /** A string with no line break in it. */
  predicate OneLine(s: string) {
    '\n' !in s
  }

  /** An optional string that is absent or holds no line break. */
  predicate OneLineOpt(s: Option<string>) {
    s.Some? ==> OneLine(s.value)
  }

  /** The pieces of `s` between line breaks, as `s.split("\n")` returns them:
      a trailing break leaves a final empty line, and "" is one empty line. */
  function Lines(s: string): (lines: seq<string>)
    ensures |lines| >= 1
    ensures forall i :: 0 <= i < |lines| ==> OneLine(lines[i])
    decreases |s|
  {
    if |s| == 0 then [""]
    else if s[0] == '\n' then [""] + Lines(s[1..])
    else
      var rest := Lines(s[1..]);
      [[s[0]] + rest[0]] + rest[1..]
  }

  /** The inverse of `Lines`: the lines put back together with breaks between them. */
  function JoinLines(lines: seq<string>): string
    requires |lines| >= 1
  {
    if |lines| == 1 then lines[0] else lines[0] + "\n" + JoinLines(lines[1..])
  }

  /** String concatenation regroups freely. */
  lemma AppendAssociative(a: string, b: string, c: string)
    ensures a + b + c == a + (b + c)
  {
  }

  /** An empty prefix changes nothing. */
  lemma NoIndent(s: string)
    ensures "" + s == s
  {
  }

  /** Concatenation of line lists regroups freely. */
  lemma LinesAssociative(a: seq<string>, b: seq<string>, c: seq<string>)
    ensures a + b + c == a + (b + c)
  {
  }

  /** Two leading lines, then the middle, then the end, regrouped. */
  lemma FrameLines(first: string, second: string, middle: seq<string>, end: seq<string>)
    ensures [first] + ([second] + (middle + end)) == [first, second] + middle + end
  {
  }

  /** Four line lists regroup freely. */
  lemma LinesAssociative4(a: seq<string>, b: seq<string>, c: seq<string>, d: seq<string>)
    ensures a + (b + (c + d)) == a + b + c + d
  {
    LinesAssociative(b, c, d);
    LinesAssociative(a, b + c, d);
    LinesAssociative(a, b, c);
  }

  /** A break splits the text into the lines before it and the lines after it. */
  lemma {:induction false} LinesAround(a: string, b: string)
    ensures Lines(a + "\n" + b) == Lines(a) + Lines(b)
    decreases |a|
  {
    if |a| == 0 {
      assert a + "\n" + b == ['\n'] + b;
      LinesCons('\n', b);
    } else {
      assert a == [a[0]] + a[1..];
      assert a + "\n" + b == [a[0]] + (a[1..] + "\n" + b);
      LinesCons(a[0], a[1..] + "\n" + b);
      LinesCons(a[0], a[1..]);
      LinesAround(a[1..], b);
      var l := Lines(a[1..]);
      if a[0] == '\n' {
        LinesAssociative([""], l, Lines(b));
      } else {
        HeadAndTail(l, Lines(b));
        LinesAssociative([[a[0]] + l[0]], l[1..], Lines(b));
      }
    }
  }

  /** How the first character of a text shapes its lines. */
  lemma LinesCons(c: char, s: string)
    ensures Lines([c] + s) ==
      if c == '\n' then [""] + Lines(s) else [[c] + Lines(s)[0]] + Lines(s)[1..]
  {
    assert ([c] + s)[0] == c;
    assert ([c] + s)[1..] == s;
  }

  /** The first line and the rest of a concatenation of line lists. */
  lemma HeadAndTail(l: seq<string>, m: seq<string>)
    requires |l| >= 1
    ensures (l + m)[0] == l[0] && (l + m)[1..] == l[1..] + m
  {
  }

  /** Text without a break is a single line. */
  lemma {:induction false} LinesOfOneLine(s: string)
    requires OneLine(s)
    ensures Lines(s) == [s]
    decreases |s|
  {
    if |s| > 0 {
      assert s[0] in s;
      assert forall c :: c in s[1..] ==> c in s;
      LinesOfOneLine(s[1..]);
      assert [s[0]] + s[1..] == s;
    }
  }

  /** A line followed by a break, then more text. */
  lemma LinesAfterLine(line: string, rest: string)
    requires OneLine(line)
    ensures Lines(line + "\n" + rest) == [line] + Lines(rest)
  {
    LinesAround(line, rest);
    LinesOfOneLine(line);
  }

  /** A last line, then a break, then nothing. */
  lemma LastLine(line: string)
    requires OneLine(line)
    ensures Lines(line + "\n") == [line, ""]
  {
    LinesAfterLine(line, "");
    assert line + "\n" + "" == line + "\n";
  }

  /** Two pieces are free of breaks exactly when their concatenation is. */
  lemma OneLineAppend(a: string, b: string)
    ensures OneLine(a + b) <==> OneLine(a) && OneLine(b)
  {
    assert forall c :: c in a + b <==> c in a || c in b;
  }

  /** Splitting loses nothing: joining the lines gives back the text. */
  lemma {:induction false} JoinLinesOfLines(s: string)
    ensures JoinLines(Lines(s)) == s
    decreases |s|
  {
    if |s| > 0 {
      JoinLinesOfLines(s[1..]);
      var rest := Lines(s[1..]);
      if s[0] == '\n' {
        assert Lines(s) == [""] + rest;
        assert Lines(s)[1..] == rest;
        assert JoinLines(Lines(s)) == "" + "\n" + JoinLines(rest);
        assert s == [s[0]] + s[1..];
      } else {
        var first := [s[0]] + rest[0];
        assert Lines(s) == [first] + rest[1..];
        if |rest| == 1 {
          assert JoinLines(Lines(s)) == first;
          assert JoinLines(rest) == rest[0];
        } else {
          assert Lines(s)[1..] == rest[1..];
          assert JoinLines(Lines(s)) == first + "\n" + JoinLines(rest[1..]);
          assert JoinLines(rest) == rest[0] + "\n" + JoinLines(rest[1..]);
        }
        assert s == [s[0]] + s[1..];
      }
    }
  }

  /** Joining lines that hold no break and splitting again gives back the lines. */
  lemma {:induction false} LinesOfJoinLines(lines: seq<string>)
    requires |lines| >= 1
    requires forall i :: 0 <= i < |lines| ==> OneLine(lines[i])
    ensures Lines(JoinLines(lines)) == lines
    decreases |lines|
  {
    if |lines| == 1 {
      LinesOfOneLine(lines[0]);
    } else {
      assert OneLine(lines[0]);
      LinesOfJoinLines(lines[1..]);
      LinesAfterLine(lines[0], JoinLines(lines[1..]));
      assert [lines[0]] + lines[1..] == lines;
    }
  }
}
