/** Splitting a chunked text into lines. */
module ProxyLines {

  /** Splitting at every newline; the last piece is what follows the last newline. */
  function SplitLines(text: string): (pieces: seq<string>)
    ensures |pieces| > 0
  {
    if text == "" then [""]
    else
      var rest := SplitLines(text[1..]);
      if text[0] == '\n' then [""] + rest else [[text[0]] + rest[0]] + rest[1..]
  }

  /** The newline-terminated lines of a text. */
  function Terminated(text: string): (lines: seq<string>) {
    var pieces := SplitLines(text);
    pieces[..|pieces| - 1]
  }

  /** What follows the last newline. */
  function Remainder(text: string): (rest: string) {
    var pieces := SplitLines(text);
    pieces[|pieces| - 1]
  }

  function Unlines(lines: seq<string>): (text: string) {
    if lines == [] then "" else lines[0] + "\n" + Unlines(lines[1..])
  }

  function Concat(chunks: seq<string>): (text: string) {
    if chunks == [] then "" else chunks[0] + Concat(chunks[1..])
  }

  predicate OneLine(line: string) {
    '\n' !in line
  }

  /** Putting a character in front of a text extends its first piece. */
  lemma {:induction false} SplitCons(c: char, text: string)
    ensures SplitLines([c] + text) ==
      if c == '\n' then [""] + SplitLines(text) else [[c] + SplitLines(text)[0]] + SplitLines(text)[1..]
  {
    assert ([c] + text)[1..] == text;
  }

  /** The lines are the unique way of cutting the text at its newlines. */
  lemma {:induction false} SplitExact(text: string)
    ensures Unlines(Terminated(text)) + Remainder(text) == text
    ensures forall line :: line in SplitLines(text) ==> OneLine(line)
  {
    if text != "" {
      SplitExact(text[1..]);
      var rest := SplitLines(text[1..]);
      var pieces := SplitLines(text);
      if text[0] == '\n' {
        assert Terminated(text) == [""] + Terminated(text[1..]);
        assert "" + "\n" + Unlines(Terminated(text[1..])) + Remainder(text) == "\n" + text[1..];
      } else if |rest| == 1 {
        assert Terminated(text) == [] && Remainder(text) == [text[0]] + rest[0];
      } else {
        var lines := Terminated(text[1..]);
        assert Terminated(text) == [[text[0]] + rest[0]] + lines[1..];
        assert Unlines(Terminated(text)) == [text[0]] + Unlines(lines);
        assert text == [text[0]] + text[1..];
      }
      if text[0] == '\n' {
        assert forall line :: line in pieces ==> line == "" || line in rest;
      } else {
        assert OneLine([text[0]] + rest[0]) by { assert rest[0] in rest; }
        assert forall line :: line in pieces ==> line == [text[0]] + rest[0] || line in rest;
      }
    }
  }

  lemma {:induction false} SplitOneLine(line: string)
    requires OneLine(line)
    ensures SplitLines(line) == [line]
  {
    if line != "" {
      assert OneLine(line[1..]) && line[0] in line;
      SplitOneLine(line[1..]);
      assert [line[0]] + line[1..] == line;
    }
  }

  lemma {:induction false} SplitLine(line: string, text: string)
    requires OneLine(line)
    ensures SplitLines(line + "\n" + text) == [line] + SplitLines(text)
  {
    if line == "" {
      assert line + "\n" + text == ['\n'] + text;
      SplitCons('\n', text);
    } else {
      assert OneLine(line[1..]) && line[0] in line;
      SplitLine(line[1..], text);
      assert line + "\n" + text == [line[0]] + (line[1..] + "\n" + text);
      SplitCons(line[0], line[1..] + "\n" + text);
      assert [line[0]] + line[1..] == line;
    }
  }

  lemma {:induction false} SplitAll(lines: seq<string>, rest: string)
    requires OneLine(rest) && forall line :: line in lines ==> OneLine(line)
    ensures SplitLines(Unlines(lines) + rest) == lines + [rest]
    decreases |lines|
  {
    if lines == [] {
      assert Unlines(lines) + rest == rest;
      SplitOneLine(rest);
    } else {
      var line, tail := lines[0], Unlines(lines[1..]) + rest;
      assert line in lines;
      SplitAll(lines[1..], rest);
      assert Unlines(lines) + rest == line + "\n" + tail;
      SplitLine(line, tail);
      assert [line] + (lines[1..] + [rest]) == lines + [rest];
    }
  }

  lemma {:induction false} SplitUnique(lines: seq<string>, rest: string)
    requires OneLine(rest) && forall line :: line in lines ==> OneLine(line)
    ensures Terminated(Unlines(lines) + rest) == lines && Remainder(Unlines(lines) + rest) == rest
  {
    SplitAll(lines, rest);
  }

  /** Splitting what has been buffered together with the next chunk continues the
      splitting of the whole text. */
  lemma {:induction false} SplitContinues(text: string, chunk: string)
    ensures Terminated(text + chunk) == Terminated(text) + Terminated(Remainder(text) + chunk)
    ensures Remainder(text + chunk) == Remainder(Remainder(text) + chunk)
  {
    var lines, rest := Terminated(text), Remainder(text);
    var more, left := Terminated(rest + chunk), Remainder(rest + chunk);
    SplitExact(text);
    SplitExact(rest + chunk);
    assert forall line :: line in lines ==> line in SplitLines(text);
    assert forall line :: line in more ==> line in SplitLines(rest + chunk);
    UnlinesConcat(lines, more);
    Regroup(Unlines(lines), rest, chunk, Unlines(more), left);
    assert forall line :: line in lines + more ==> line in lines || line in more;
    SplitUnique(lines + more, left);
  }

  lemma {:induction false} Regroup(a: string, rest: string, chunk: string, b: string, left: string)
    requires rest + chunk == b + left
    ensures a + rest + chunk == a + b + left
  {
    assert a + rest + chunk == a + (rest + chunk);
    assert a + b + left == a + (b + left);
  }

  lemma {:induction false} UnlinesConcat(a: seq<string>, b: seq<string>)
    ensures Unlines(a + b) == Unlines(a) + Unlines(b)
    decreases |a|
  {
    if a == [] {
      assert a + b == b;
    } else {
      assert (a + b)[1..] == a[1..] + b;
      UnlinesConcat(a[1..], b);
      assert a[0] + "\n" + (Unlines(a[1..]) + Unlines(b)) == a[0] + "\n" + Unlines(a[1..]) + Unlines(b);
    }
  }

  lemma {:induction false} ConcatSnoc(chunks: seq<string>, k: nat)
    requires k < |chunks|
    ensures Concat(chunks[..k + 1]) == Concat(chunks[..k]) + chunks[k]
    decreases k
  {
    if k == 0 {
      assert chunks[..1] == [chunks[0]] && [chunks[0]][1..] == [] && chunks[..0] == [];
    } else {
      assert chunks[..k + 1][1..] == chunks[1..][..k];
      assert chunks[..k][1..] == chunks[1..][..k - 1];
      ConcatSnoc(chunks[1..], k - 1);
      assert chunks[0] + (Concat(chunks[1..][..k - 1]) + chunks[k]) == chunks[0] + Concat(chunks[1..][..k - 1]) + chunks[k];
    }
  }
}
