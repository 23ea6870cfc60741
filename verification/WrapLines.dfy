/** What the wrapped text looks like: its lines, how they are indented and how full they are. */
module WrapLines {
  import opened IndentWrap

  /** The lines of a text. */
  function Lines(s: string): (lines: seq<string>)
    ensures lines != []
  {
    if s == "" then [""]
    else
      var rest := Lines(s[1..]);
      if s[0] == '\n' then [""] + rest else [[s[0]] + rest[0]] + rest[1..]
  }

  /** The words of a row with a space between them. */
  function Spaced(row: Row): string {
    if row == [] then "" else if |row| == 1 then row[0] else row[0] + " " + Spaced(row[1..])
  }

  lemma SpacedAppend(first: string, mid: string, last: string)
    ensures first + " " + (mid + " " + last) == first + " " + mid + " " + last
  {
  }

  lemma {:induction false} RowTextSpaced(row: Row)
    ensures RowText(row) == Spaced(row)
    decreases |row|
  {
    if |row| == 2 {
      assert row[..1] == [row[0]] && row[1..] == [row[1]];
    } else if |row| > 2 {
      var n := |row| - 1;
      RowTextSpaced(row[..n]);
      RowTextSpaced(row[1..]);
      RowTextSpaced(row[1..n]);
      assert row[..n][1..] == row[1..n] && row[1..][..n - 1] == row[1..n];
      SpacedAppend(row[0], Spaced(row[1..n]), row[n]);
    }
  }

  // ----- lines of a text put together from lines

  lemma {:induction false} LinesConcat(a: string, b: string)
    ensures Lines(a + ['\n'] + b) == Lines(a) + Lines(b)
  {
    var all := a + ['\n'] + b;
    if a == "" {
      assert all[0] == '\n' && all[1..] == b;
    } else {
      assert all[0] == a[0] && all[1..] == a[1..] + ['\n'] + b;
      LinesConcat(a[1..], b);
    }
  }

  lemma {:induction false} OneLine(s: string)
    requires '\n' !in s
    ensures Lines(s) == [s]
  {
    if s != "" {
      OneLine(s[1..]);
      assert [s[0]] + s[1..] == s;
    }
  }

  lemma {:induction false} RowIsOneLine(row: Row)
    requires AllWords(row)
    ensures '\n' !in RowText(row)
  {
    if |row| > 1 {
      RowIsOneLine(row[..|row| - 1]);
    }
  }

  /** The lines that show these rows. */
  ghost predicate ShowsRows(lines: seq<string>, rows: seq<Row>) {
    && |lines| == |rows|
    && forall k :: 0 <= k < |rows| ==> lines[k] == (if k == 0 then "" else "         ") + Spaced(rows[k])
  }

  lemma IndentedLine(row: Row)
    requires AllWords(row)
    ensures Lines("         " + RowText(row)) == ["         " + Spaced(row)]
    ensures Lines(RowText(row)) == [Spaced(row)]
  {
    hide RowText, Spaced;
    RowIsOneLine(row);
    RowTextSpaced(row);
    OneLine(RowText(row));
    OneLine("         " + RowText(row));
  }

  lemma {:induction false} LinesOfText(rows: seq<Row>)
    requires rows != [] && forall k :: 0 <= k < |rows| ==> AllWords(rows[k])
    ensures ShowsRows(Lines(Text(rows)), rows)
  {
    hide AllWords, RowText, Spaced, Lines, Text;
    var init, last := rows[..|rows| - 1], rows[|rows| - 1];
    assert rows == init + [last];
    TextAppend(init, last);
    IndentedLine(last);
    if init == [] {
      assert "" + Spaced(last) == Spaced(last);
    } else {
      LinesOfText(init);
      LineBreak(Text(init), INDENT, RowText(last));
      LinesConcat(Text(init), INDENT + RowText(last));
    }
  }

  // ----- every row is full

  /** The first word of a row had no room on the row before. */
  ghost predicate Full(rows: seq<Row>) {
    forall k :: 0 < k < |rows| ==> rows[k] != [] && Width(Spaced(rows[k - 1])) + 1 + Width(rows[k][0]) > 76
  }

  lemma FullCons(row: Row, rows: seq<Row>)
    requires Full(rows)
    requires rows != [] ==> rows[0] != [] && Width(Spaced(row)) + 1 + Width(rows[0][0]) > 76
    ensures Full([row] + rows)
  {
    hide Width, Spaced;
    var all := [row] + rows;
    forall k | 0 < k < |all| ensures all[k] != [] && Width(Spaced(all[k - 1])) + 1 + Width(all[k][0]) > 76 {
      if k > 1 {
        assert all[k] == rows[k - 1] && all[k - 1] == rows[k - 2];
      }
    }
  }

  lemma {:induction false} FillIsFull(cur: Row, rest: seq<string>)
    requires cur != []
    ensures var rows := Fill(cur, rest); rows != [] && cur <= rows[0] && Full(rows)
    decreases |rest|
  {
    hide Width, RowText, Spaced, Full;
    if rest == [] {
      OneRowIsFull(cur);
    } else if Width(RowText(cur)) + 1 + Width(rest[0]) > WIDTH {
      FillIsFull([rest[0]], rest[1..]);
      RowTextSpaced(cur);
      FullCons(cur, Fill([rest[0]], rest[1..]));
    } else {
      FillIsFull(cur + [rest[0]], rest[1..]);
    }
  }

  lemma OneRowIsFull(row: Row)
    ensures Full([row])
  {
  }

  lemma GreedyIsFull(words: seq<string>)
    requires words != []
    ensures Greedy(words) != [] && Full(Greedy(words))
  {
    hide Full, Fill;
    FillIsFull([words[0]], words[1..]);
  }

  // ----- the wrapped text

  /** The lines of the wrapped text show the words in order: a space between two words, nine spaces
      before every line but the first, no line of two words or more wider than 76, and no line
      begun while the one before had room for its first word. */
  lemma WrappedLines(s: string) returns (rows: seq<Row>)
    requires Fields(s) != []
    ensures ShowsRows(Lines(Wrap(s)), rows)
    ensures Flatten(rows) == Fields(s) && Full(rows)
    ensures forall k :: 0 <= k < |rows| ==> rows[k] != [] && (|rows[k]| > 1 ==> Width(Spaced(rows[k])) <= 76)
  {
    hide Lines, Text, Full, Spaced, RowText, Width, Greedy, AllWords, Fields;
    rows := Greedy(Fields(s));
    WordsOf(s);
    GreedyBreaks(Fields(s));
    GreedyIsFull(Fields(s));
    RowsOfWords(rows);
    LinesOfText(rows);
    forall k | 0 <= k < |rows| ensures RowText(rows[k]) == Spaced(rows[k]) {
      RowTextSpaced(rows[k]);
    }
  }

  lemma WordsOf(s: string)
    ensures AllWords(Fields(s))
  {
    FieldsAreWords(s, "");
  }
}
