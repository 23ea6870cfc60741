/**
 The greedy line breaker of the command line. A text is a sequence of characters, whose width is
 what they take in UTF-8; words are separated by Unicode whitespace.
 */
module IndentWrap {

  const WIDTH := 76
  const INDENT := "         "

  predicate IsSpace(c: char) {
    var n := c as int;
    || 0x09 <= n <= 0x0D || n == 0x20 || n == 0x85 || n == 0xA0 || n == 0x1680 || 0x2000 <= n <= 0x200A
    || n == 0x2028 || n == 0x2029 || n == 0x202F || n == 0x205F || n == 0x3000
  }

  /** How many bytes a character takes. */
  function CharWidth(c: char): nat {
    var n := c as int;
    if n < 0x80 then 1 else if n < 0x800 then 2 else if n < 0x1_0000 then 3 else 4
  }

  /** The length of a text in bytes, which is what the column counts. */
  function Width(s: string): nat {
    if s == "" then 0 else Width(s[..|s| - 1]) + CharWidth(s[|s| - 1])
  }

  lemma {:induction false} WidthConcat(s: string, t: string)
    ensures Width(s + t) == Width(s) + Width(t)
    decreases |t|
  {
    hide CharWidth;
    if t == "" {
      assert s + t == s;
    } else {
      var n := |t| - 1;
      assert (s + t)[..|s + t| - 1] == s + t[..n];
      WidthConcat(s, t[..n]);
    }
  }

  predicate IsWord(w: string) {
    w != "" && forall k :: 0 <= k < |w| ==> !IsSpace(w[k])
  }

  // ----- words of a text

  /** The whitespace-separated words of `s`, when `cur` is the word being read. */
  function FieldsFrom(s: string, cur: string): seq<string> {
    if s == "" then if cur == "" then [] else [cur]
    else if IsSpace(s[0]) then (if cur == "" then [] else [cur]) + FieldsFrom(s[1..], "")
    else FieldsFrom(s[1..], cur + [s[0]])
  }

  function Fields(s: string): seq<string> {
    FieldsFrom(s, "")
  }

  ghost predicate AllWords(words: seq<string>) {
    forall i :: 0 <= i < |words| ==> IsWord(words[i])
  }

  lemma {:induction false} FieldsAreWords(s: string, cur: string)
    requires cur == "" || IsWord(cur)
    ensures AllWords(FieldsFrom(s, cur))
    decreases |s|
  {
    if s != "" {
      if IsSpace(s[0]) {
        FieldsAreWords(s[1..], "");
      } else {
        FieldsAreWords(s[1..], cur + [s[0]]);
      }
    }
  }

  /** A space ends a word, whatever stands on either side. */
  lemma {:induction false} FieldsSplitAtSpace(s: string, sp: char, t: string, cur: string)
    requires IsSpace(sp)
    ensures FieldsFrom(s + [sp] + t, cur) == FieldsFrom(s, cur) + Fields(t)
    decreases |s|
  {
    var all := s + [sp] + t;
    if s == "" {
      assert all[0] == sp && all[1..] == t;
    } else {
      assert all[0] == s[0] && all[1..] == s[1..] + [sp] + t;
      FieldsSplitAtSpace(s[1..], sp, t, if IsSpace(s[0]) then "" else cur + [s[0]]);
    }
  }

  lemma {:induction false} FieldsOfWord(w: string, cur: string)
    requires forall k :: 0 <= k < |w| ==> !IsSpace(w[k])
    requires cur + w != ""
    ensures FieldsFrom(w, cur) == [cur + w]
    decreases |w|
  {
    if w == "" {
      assert cur + w == cur;
    } else {
      FieldsOfWord(w[1..], cur + [w[0]]);
      assert cur + [w[0]] + w[1..] == cur + w;
    }
  }

  lemma {:induction false} FieldsSkipSpaces(spaces: string, t: string)
    requires forall k :: 0 <= k < |spaces| ==> IsSpace(spaces[k])
    ensures Fields(spaces + t) == Fields(t)
  {
    if spaces == "" {
      assert spaces + t == t;
    } else {
      assert (spaces + t)[1..] == spaces[1..] + t;
      FieldsSkipSpaces(spaces[1..], t);
    }
  }

  // ----- rows and their text

  type Row = seq<string>

  function RowText(row: Row): string {
    if row == [] then ""
    else if |row| == 1 then row[0]
    else RowText(row[..|row| - 1]) + " " + row[|row| - 1]
  }

  function Text(rows: seq<Row>): string {
    if rows == [] then ""
    else if |rows| == 1 then RowText(rows[0])
    else Text(rows[..|rows| - 1]) + ("\n" + INDENT + RowText(rows[|rows| - 1]))
  }

  function Flatten(rows: seq<Row>): seq<string> {
    if rows == [] then [] else rows[0] + Flatten(rows[1..])
  }

  function Letters(row: Row): nat {
    if row == [] then 0 else Letters(row[..|row| - 1]) + Width(row[|row| - 1])
  }

  lemma WidthOfSpaced(s: string, t: string)
    ensures Width(s + " " + t) == Width(s) + 1 + Width(t)
  {
    WidthConcat(s + " ", t);
    WidthConcat(s, " ");
    assert " "[..0] == "" && Width(" ") == Width("") + CharWidth(' ');
  }

  lemma {:induction false} RowTextWidth(row: Row)
    requires row != []
    ensures Width(RowText(row)) == Letters(row) + |row| - 1
  {
    hide Width;
    var init, last := row[..|row| - 1], row[|row| - 1];
    if |row| == 1 {
      assert Letters(init) == 0;
    } else {
      RowTextWidth(init);
      WidthOfSpaced(RowText(init), last);
    }
  }

  lemma {:induction false} LettersConcat(a: Row, b: Row)
    ensures Letters(a + b) == Letters(a) + Letters(b)
    decreases |b|
  {
    hide Width;
    if b == [] {
      assert a + b == a;
    } else {
      LettersConcat(a, b[..|b| - 1]);
      assert (a + b)[..|a + b| - 1] == a + b[..|b| - 1];
    }
  }

  /** A stretch of a row is no wider than the row. */
  lemma StretchIsNarrower(row: Row, i: nat, j: nat)
    requires i < j <= |row|
    ensures Width(RowText(row[i..j])) <= Width(RowText(row))
  {
    hide Width, RowText;
    assert row == row[..i] + row[i..j] + row[j..];
    LettersConcat(row[..i] + row[i..j], row[j..]);
    LettersConcat(row[..i], row[i..j]);
    RowTextWidth(row[i..j]);
    RowTextWidth(row);
  }

  // ----- the greedy breaking

  /** Continues the row `cur` with the words that remain. */
  function Fill(cur: Row, rest: seq<string>): seq<Row>
    decreases |rest|
  {
    if rest == [] then [cur]
    else if Width(RowText(cur)) + 1 + Width(rest[0]) > WIDTH then [cur] + Fill([rest[0]], rest[1..])
    else Fill(cur + [rest[0]], rest[1..])
  }

  function Greedy(words: seq<string>): seq<Row> {
    if words == [] then [] else Fill([words[0]], words[1..])
  }

  function Wrap(s: string): string {
    Text(Greedy(Fields(s)))
  }

  lemma RowTextAppend(cur: Row, word: string)
    requires cur != []
    ensures RowText(cur + [word]) == RowText(cur) + " " + word
    ensures Width(RowText(cur + [word])) == Width(RowText(cur)) + 1 + Width(word)
  {
    assert (cur + [word])[..|cur|] == cur;
    WidthOfSpaced(RowText(cur), word);
  }

  lemma TextAppend(rows: seq<Row>, row: Row)
    ensures Text(rows + [row]) == if rows == [] then RowText(row) else Text(rows) + ("\n" + INDENT + RowText(row))
  {
    assert rows == [] ==> rows + [row] == [row];
    assert (rows + [row])[..|rows|] == rows;
  }

  lemma AppendAtEnd(t: string, indent: string, r: string, w: string)
    ensures r + " " + w == r + (" " + w)
    ensures t + (indent + (r + " " + w)) == t + (indent + r) + (" " + w)
  {
  }

  /** Extending the last row extends the text. */
  lemma RowGrows(before: seq<Row>, cur: Row, word: string)
    requires cur != []
    ensures Text(before + [cur + [word]]) == Text(before + [cur]) + (" " + word)
  {
    hide Text, RowText, Width;
    RowTextAppend(cur, word);
    TextAppend(before, cur);
    TextAppend(before, cur + [word]);
    AppendAtEnd(Text(before), "\n" + INDENT, RowText(cur), word);
  }

  /** One word more: it extends the row being filled, or starts the next one. */
  lemma FillStep(before: seq<Row>, cur: Row, rest: seq<string>)
    requires cur != [] && rest != []
    ensures if Width(RowText(cur)) + 1 + Width(rest[0]) > WIDTH
            then before + Fill(cur, rest) == before + [cur] + Fill([rest[0]], rest[1..])
            else before + Fill(cur, rest) == before + Fill(cur + [rest[0]], rest[1..])
  {
    hide RowText, Width;
    assert before + ([cur] + Fill([rest[0]], rest[1..])) == before + [cur] + Fill([rest[0]], rest[1..]);
  }

  method Wrapped(s: string) returns (out: string)
    ensures out == Wrap(s)
  {
    hide Fill, Text, RowText, Fields, Width;
    var words := Fields(s);
    out := "";
    var col := 0;
    ghost var before: seq<Row>, cur: Row := [], [];
    for i := 0 to |words|
      invariant i == 0 ==> out == ""
      invariant i > 0 ==> cur != [] && col == Width(RowText(cur)) && out == Text(before + [cur])
      invariant i > 0 ==> before + Fill(cur, words[i..]) == Greedy(words)
    {
      var word := words[i];
      assert words[i..][0] == word && words[i..][1..] == words[i + 1..];
      OneWord(word);
      if i == 0 {
        out := word;
        col := Width(word);
        before, cur := [], [word];
        TextAppend([], cur);
        assert before + [cur] == [cur] && before + Fill(cur, words[1..]) == Fill(cur, words[1..]);
      } else {
        FillStep(before, cur, words[i..]);
        if col + 1 + Width(word) > WIDTH {
          out := out + ("\n" + INDENT + word);
          col := Width(word);
          before, cur := before + [cur], [word];
          TextAppend(before, cur);
        } else {
          out := out + (" " + word);
          col := col + 1 + Width(word);
          RowGrows(before, cur, word);
          RowTextAppend(cur, word);
          cur := cur + [word];
        }
      }
    }
    if words == [] {
      NoRowsNoText();
    } else {
      FillEnds(cur);
      assert words[|words|..] == [];
    }
  }

  lemma OneWord(word: string)
    ensures RowText([word]) == word
  {
  }

  lemma NoRowsNoText()
    ensures Text([]) == ""
  {
  }

  lemma FillEnds(cur: Row)
    ensures Fill(cur, []) == [cur]
  {
  }

  // ----- nothing lost, nothing too wide

  predicate Fits(row: Row) {
    |row| == 1 || (|row| > 1 && Width(RowText(row)) <= 76)
  }

  /** A way of breaking the words: rows in order, none empty, each within the width unless it is
      a single word. */
  ghost predicate Breaking(rows: seq<Row>, words: seq<string>) {
    Flatten(rows) == words && forall k :: 0 <= k < |rows| ==> Fits(rows[k])
  }

  lemma BreakingCons(row: Row, rows: seq<Row>, words: seq<string>)
    requires Fits(row) && Breaking(rows, words)
    ensures Breaking([row] + rows, row + words)
  {
    assert ([row] + rows)[1..] == rows;
  }

  lemma {:induction false} FillBreaks(cur: Row, rest: seq<string>)
    requires Fits(cur)
    ensures Breaking(Fill(cur, rest), cur + rest)
    decreases |rest|
  {
    hide RowText, Width;
    if rest == [] {
      assert Flatten([cur]) == cur + Flatten([]);
    } else {
      assert [rest[0]] + rest[1..] == rest;
      if Width(RowText(cur)) + 1 + Width(rest[0]) > WIDTH {
        FillBreaks([rest[0]], rest[1..]);
        BreakingCons(cur, Fill([rest[0]], rest[1..]), rest);
      } else {
        RowTextAppend(cur, rest[0]);
        FillBreaks(cur + [rest[0]], rest[1..]);
        assert cur + [rest[0]] + rest[1..] == cur + rest;
      }
    }
  }

  lemma GreedyBreaks(words: seq<string>)
    ensures Breaking(Greedy(words), words)
  {
    if words != [] {
      FillBreaks([words[0]], words[1..]);
      assert [words[0]] + words[1..] == words;
    }
  }

  // ----- no breaking uses fewer rows

  /** `m` more words belong to the first row, and the next one does not fit. */
  ghost predicate Takes(cur: Row, rest: seq<string>, m: nat) {
    && m <= |rest| && Fill(cur, rest) == [cur + rest[..m]] + Greedy(rest[m..])
    && (m < |rest| ==> Width(RowText(cur + rest[..m + 1])) > WIDTH)
  }

  /** The first row takes as many words as fit; the rest is broken the same way. */
  lemma {:induction false} FillFirst(cur: Row, rest: seq<string>) returns (m: nat)
    requires cur != []
    ensures Takes(cur, rest, m)
    decreases |rest|
  {
    hide Takes, Fill, RowText, Width, Greedy;
    if rest == [] {
      m := 0;
      TakesNothing(cur, rest);
    } else if Width(RowText(cur)) + 1 + Width(rest[0]) > WIDTH {
      m := 0;
      TakesNothing(cur, rest);
    } else {
      var n := FillFirst(cur + [rest[0]], rest[1..]);
      TakesOneMore(cur, rest, n);
      m := n + 1;
    }
  }

  lemma TakesNothing(cur: Row, rest: seq<string>)
    requires cur != []
    requires rest == [] || Width(RowText(cur)) + 1 + Width(rest[0]) > WIDTH
    ensures Takes(cur, rest, 0)
  {
    hide RowText, Width;
    assert cur + rest[..0] == cur && rest[0..] == rest;
    if rest != [] {
      assert cur + rest[..1] == cur + [rest[0]];
      RowTextAppend(cur, rest[0]);
    }
  }

  lemma TakesOneMore(cur: Row, rest: seq<string>, n: nat)
    requires rest != [] && Width(RowText(cur)) + 1 + Width(rest[0]) <= WIDTH
    requires Takes(cur + [rest[0]], rest[1..], n)
    ensures Takes(cur, rest, n + 1)
  {
    hide RowText, Width, Greedy;
    assert cur + [rest[0]] + rest[1..][..n] == cur + rest[..n + 1];
    assert rest[1..][n..] == rest[n + 1..];
    assert n + 1 < |rest| ==> cur + [rest[0]] + rest[1..][..n + 1] == cur + rest[..n + 2];
  }

  lemma FirstRow(words: seq<string>) returns (k: nat)
    requires words != []
    ensures 1 <= k <= |words| && Greedy(words) == [words[..k]] + Greedy(words[k..])
    ensures k < |words| ==> Width(RowText(words[..k + 1])) > WIDTH
  {
    hide RowText, Width;
    var m := FillFirst([words[0]], words[1..]);
    k := m + 1;
    assert [words[0]] + words[1..][..m] == words[..k];
    assert words[1..][m..] == words[k..];
    assert k < |words| ==> [words[0]] + words[1..][..m + 1] == words[..k + 1];
  }

  /** Greedy, started anywhere inside the first row of another breaking, gets past that row. */
  lemma ReachesPastRow(words: seq<string>, a: nat, j: nat, k: nat)
    requires j < a <= |words| && Fits(words[..a])
    requires 1 <= k && j + k <= |words|
    requires j + k < |words| ==> Width(RowText(words[j..][..k + 1])) > WIDTH
    ensures j + k >= a
  {
    hide RowText, Width;
    if j + k < a {
      assert words[j..][..k + 1] == words[..a][j..j + k + 1];
      StretchIsNarrower(words[..a], j, j + k + 1);
    }
  }

  lemma FirstOfBreaking(rows: seq<Row>, words: seq<string>) returns (a: nat)
    requires Breaking(rows, words) && rows != []
    ensures 1 <= a <= |words| && words[..a] == rows[0] && Fits(words[..a])
    ensures Breaking(rows[1..], words[a..])
  {
    hide RowText, Width;
    a := |rows[0]|;
    assert words == rows[0] + Flatten(rows[1..]);
    assert words[..a] == rows[0] && words[a..] == Flatten(rows[1..]);
  }

  lemma DropTwice(words: seq<string>, i: nat, j: nat)
    requires i <= j <= |words|
    ensures words[i..][j - i..] == words[j..]
  {
  }

  lemma NothingToBreak(rows: seq<Row>, words: seq<string>, j: nat)
    requires Breaking(rows, words) && j <= |words|
    ensures j == |words| ==> Greedy(words[j..]) == []
    ensures j < |words| ==> rows != []
  {
  }

  /** From word `j`, greedy takes one row and is past the first row of the other breaking. */
  lemma FirstRowGetsAhead(words: seq<string>, a: nat, j: nat) returns (next: nat)
    requires j < a <= |words| && Fits(words[..a])
    ensures a <= next <= |words| && |Greedy(words[j..])| == 1 + |Greedy(words[next..])|
  {
    hide Fits, Greedy, RowText, Width;
    var k := FirstRow(words[j..]);
    ReachesPastRow(words, a, j, k);
    DropTwice(words, j, j + k);
    next := j + k;
  }

  /** Greedy from any later word needs no more rows than any breaking of all the words. */
  lemma {:induction false} GreedyStaysAhead(rows: seq<Row>, words: seq<string>, j: nat)
    requires Breaking(rows, words) && j <= |words|
    ensures |Greedy(words[j..])| <= |rows|
    decreases |rows|
  {
    hide *;
    NothingToBreak(rows, words, j);
    if j < |words| {
      var a := FirstOfBreaking(rows, words);
      var next := j;
      if j < a {
        next := FirstRowGetsAhead(words, a, j);
      }
      DropTwice(words, a, next);
      GreedyStaysAhead(rows[1..], words[a..], next - a);
    }
  }

  /** The wrapper keeps the words in order, keeps every row within the width unless it is one
      word, and no other way of breaking the words under that rule uses fewer rows. */
  lemma GreedyIsOptimal(words: seq<string>, rows: seq<Row>)
    requires Breaking(rows, words)
    ensures Breaking(Greedy(words), words) && |Greedy(words)| <= |rows|
  {
    GreedyBreaks(words);
    GreedyStaysAhead(rows, words, 0);
    assert words[0..] == words;
  }

  // ----- wrapping keeps the words of the text

  lemma {:induction false} FieldsOfRow(row: Row)
    requires AllWords(row)
    ensures Fields(RowText(row)) == row
  {
    if row == [] {
    } else if |row| == 1 {
      FieldsOfWord(row[0], "");
      assert "" + row[0] == row[0];
    } else {
      var init, last := row[..|row| - 1], row[|row| - 1];
      FieldsOfRow(init);
      FieldsSplitAtSpace(RowText(init), ' ', last, "");
      FieldsOfWord(last, "");
      assert "" + last == last;
    }
  }

  lemma {:induction false} FlattenAppend(rows: seq<Row>, row: Row)
    ensures Flatten(rows + [row]) == Flatten(rows) + row
  {
    if rows == [] {
      assert rows + [row] == [row];
      assert Flatten([row]) == row + Flatten([]);
    } else {
      FlattenAppend(rows[1..], row);
      assert (rows + [row])[1..] == rows[1..] + [row];
    }
  }

  lemma LineBreak(s: string, indent: string, t: string)
    ensures s + ("\n" + indent + t) == s + ['\n'] + (indent + t)
  {
  }

  lemma TextOfLast(init: seq<Row>, last: Row)
    requires init != [] && Fields(RowText(last)) == last
    ensures Fields(Text(init + [last])) == Fields(Text(init)) + last
  {
    hide Fields, RowText, Text;
    TextAppend(init, last);
    LineBreak(Text(init), INDENT, RowText(last));
    SplitAtNewline(Text(init), INDENT + RowText(last));
    FieldsSkipSpaces(INDENT, RowText(last));
  }

  lemma SplitAtNewline(s: string, t: string)
    ensures Fields(s + ['\n'] + t) == Fields(s) + Fields(t)
  {
    FieldsSplitAtSpace(s, '\n', t, "");
  }

  lemma {:induction false} FieldsOfText(rows: seq<Row>)
    requires forall k :: 0 <= k < |rows| ==> AllWords(rows[k])
    ensures Fields(Text(rows)) == Flatten(rows)
  {
    hide AllWords, RowText, Fields;
    if rows == [] {
      NoFields();
    } else {
      var init, last := rows[..|rows| - 1], rows[|rows| - 1];
      assert rows == init + [last];
      FlattenAppend(init, last);
      FieldsOfRow(last);
      if init == [] {
        assert Flatten(init) + last == last;
      } else {
        FieldsOfText(init);
        TextOfLast(init, last);
      }
    }
  }

  lemma NoFields()
    ensures Fields(Text([])) == []
  {
  }

  lemma {:induction false} RowsOfWords(rows: seq<Row>)
    requires AllWords(Flatten(rows))
    ensures forall k :: 0 <= k < |rows| ==> AllWords(rows[k])
  {
    hide IsWord;
    if rows != [] {
      var rest := Flatten(rows[1..]);
      assert forall i :: 0 <= i < |rest| ==> rest[i] == Flatten(rows)[|rows[0]| + i];
      assert forall i :: 0 <= i < |rows[0]| ==> rows[0][i] == Flatten(rows)[i];
      RowsOfWords(rows[1..]);
    }
  }

  /** The words read back from the wrapped text are the words of the text. */
  lemma WrapKeepsWords(s: string)
    ensures Fields(Wrap(s)) == Fields(s)
  {
    FieldsAreWords(s, "");
    GreedyBreaks(Fields(s));
    RowsOfWords(Greedy(Fields(s)));
    FieldsOfText(Greedy(Fields(s)));
  }

  /** So wrapping twice is wrapping once. */
  lemma WrapIsIdempotent(s: string)
    ensures Wrap(Wrap(s)) == Wrap(s)
  {
    WrapKeepsWords(s);
  }
}
