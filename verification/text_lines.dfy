/** The subcontractor and work-area text boxes become lists with
    `text.split("\n")`: every line is an entry, empty lines included, and
    an empty box gives one empty entry. */
module TextLines {

  /** `text.split("\n")`. */
  function SplitLines(text: string): (r: seq<string>)
    ensures |r| == multiset(text)['\n'] + 1
    ensures forall k :: 0 <= k < |r| ==> '\n' !in r[k]
  {
    if text == [] then [""]
    else
      var rest := SplitLines(text[1..]);
      assert text == [text[0]] + text[1..];
      if text[0] == '\n' then [""] + rest
      else [[text[0]] + rest[0]] + rest[1..]
  }

  /** `"\n".join(lines)`. */
  function JoinLines(lines: seq<string>): string
    requires lines != []
  {
    if |lines| == 1 then lines[0] else lines[0] + "\n" + JoinLines(lines[1..])
  }

  lemma {:induction false} JoinConsFirst(c: char, lines: seq<string>)
    requires lines != []
    ensures JoinLines([[c] + lines[0]] + lines[1..]) == [c] + JoinLines(lines)
  {
  }

  /** Joining the entries with newlines gives back the text that was split. */
  lemma {:induction false} SplitThenJoin(text: string)
    ensures JoinLines(SplitLines(text)) == text
  {
    if text != [] {
      var rest := SplitLines(text[1..]);
      SplitThenJoin(text[1..]);
      if text[0] == '\n' {
        NewlineFirst(text, rest);
      } else {
        assert SplitLines(text) == [[text[0]] + rest[0]] + rest[1..];
        JoinConsFirst(text[0], rest);
        assert [text[0]] + text[1..] == text;
      }
    }
  }

  lemma NewlineFirst(text: string, rest: seq<string>)
    requires text != [] && text[0] == '\n'
    requires rest == SplitLines(text[1..]) && JoinLines(rest) == text[1..]
    ensures JoinLines(SplitLines(text)) == text
  {
  }

  lemma {:induction false} SplitWithoutNewline(line: string)
    requires '\n' !in line
    ensures SplitLines(line) == [line]
  {
    if line != [] {
      assert '\n' !in line[1..] by {
        assert forall c :: c in line[1..] ==> c in line;
      }
      SplitWithoutNewline(line[1..]);
      assert [line[0]] + line[1..] == line;
    }
  }

  lemma {:induction false} SplitAfterLine(line: string, tail: string)
    requires '\n' !in line
    ensures SplitLines(line + "\n" + tail) == [line] + SplitLines(tail)
  {
    var t := line + "\n" + tail;
    if line == [] {
      assert t[1..] == tail;
    } else {
      assert '\n' !in line[1..] by {
        assert forall c :: c in line[1..] ==> c in line;
      }
      assert t[1..] == line[1..] + "\n" + tail;
      SplitAfterLine(line[1..], tail);
      assert [line[0]] + line[1..] == line;
    }
  }

  /** Splitting newline-free entries joined with newlines gives back the
      entries: together with `SplitThenJoin`, splitting and joining are
      inverse to each other. */
  lemma {:induction false} JoinThenSplit(lines: seq<string>)
    requires lines != []
    requires forall k :: 0 <= k < |lines| ==> '\n' !in lines[k]
    ensures SplitLines(JoinLines(lines)) == lines
  {
    if |lines| == 1 {
      SplitWithoutNewline(lines[0]);
    } else {
      JoinThenSplit(lines[1..]);
      SplitAfterLine(lines[0], JoinLines(lines[1..]));
      assert [lines[0]] + lines[1..] == lines;
    }
  }

  /** An empty line between two entries is kept as an empty entry: for
      example `"Acme Co\n\nBeta Inc"` gives three entries, the middle one empty. */
  lemma BlankLineKept(first: string, last: string)
    requires '\n' !in first && '\n' !in last
    ensures SplitLines(first + "\n\n" + last) == [first, "", last]
  {
    var tail := "\n" + last;
    assert first + "\n\n" + last == first + "\n" + tail;
    assert tail == "" + "\n" + last;
    SplitAfterLine(first, tail);
    SplitAfterLine("", last);
    SplitWithoutNewline(last);
  }

  /** An empty box still yields one (empty) entry. */
  lemma EmptyTextGivesOneEntry()
    ensures SplitLines("") == [""]
  {
  }
}
