/** The text form of a matrix written by `os << m`: the cells of a row are
    separated by one space, the rows by one newline, and nothing is written
    after the last cell. How a single number is printed is the stream's
    business and is a parameter here (`show`). */
module MatrixText {
  import opened Matrices

  /** The parts with one separator character between neighbours and none at
      either end. */
  function Join(parts: seq<string>, sep: char): string
  {
    if |parts| == 0 then ""
    else if |parts| == 1 then parts[0]
    else parts[0] + [sep] + Join(parts[1..], sep)
  }

  /** The first position of c in s. */
  function IndexOf(s: string, c: char): (k: nat)
    requires c in s
    ensures k < |s| && s[k] == c && c !in s[..k]
  {
    if s[0] == c then 0 else 1 + IndexOf(s[1..], c)
  }

  /** The pieces of s between occurrences of sep (always at least one piece). */
  function Split(s: string, sep: char): (parts: seq<string>)
    ensures |parts| > 0
    decreases |s|
  {
    if sep !in s then [s]
    else
      var k := IndexOf(s, sep);
      [s[..k]] + Split(s[k + 1..], sep)
  }

  /** Joining one more part on the right adds one separator and the part. */
  lemma {:induction false} JoinSnoc(parts: seq<string>, x: string, sep: char)
    requires |parts| > 0
    ensures Join(parts + [x], sep) == Join(parts, sep) + [sep] + x
  {
    if |parts| == 1 {
      assert (parts + [x])[1..] == [x];
    } else {
      JoinSnoc(parts[1..], x, sep);
      assert (parts + [x])[1..] == parts[1..] + [x];
    }
  }

  /** A joined text contains no character that is neither the separator nor
      in one of the parts. */
  lemma {:induction false} JoinAvoids(parts: seq<string>, sep: char, c: char)
    requires c != sep
    requires forall k :: 0 <= k < |parts| ==> c !in parts[k]
    ensures c !in Join(parts, sep)
  {
    if |parts| > 1 {
      JoinAvoids(parts[1..], sep, c);
    }
  }

  /** The first occurrence of c in a + [c] + b, when a has none, is right after a. */
  lemma {:induction false} IndexAfterPrefix(a: string, b: string, c: char)
    requires c !in a
    ensures c in a + [c] + b && IndexOf(a + [c] + b, c) == |a|
  {
    var s := a + [c] + b;
    assert s[|a|] == c;
    assert s[..|a|] == a;
  }

  /** Splitting undoes joining when no part contains the separator: the text
      form is unambiguous. */
  lemma {:induction false} SplitJoin(parts: seq<string>, sep: char)
    requires |parts| > 0
    requires forall k :: 0 <= k < |parts| ==> sep !in parts[k]
    ensures Split(Join(parts, sep), sep) == parts
  {
    if |parts| == 1 {
      assert Join(parts, sep) == parts[0];
    } else {
      var rest := Join(parts[1..], sep);
      var s := parts[0] + [sep] + rest;
      assert Join(parts, sep) == s;
      IndexAfterPrefix(parts[0], rest, sep);
      var k := |parts[0]|;
      assert s[..k] == parts[0];
      assert s[k + 1..] == rest;
      assert Split(s, sep) == [parts[0]] + Split(rest, sep);
      assert forall r :: 0 <= r < |parts[1..]| ==> sep !in parts[1..][r];
      SplitJoin(parts[1..], sep);
      assert parts == [parts[0]] + parts[1..];
    }
  }

  /** A joined text ends with its last part: no separator trails it. */
  lemma {:induction false} JoinEndsWithLast(parts: seq<string>, sep: char)
    requires |parts| > 0
    ensures var t := Join(parts, sep);
            var last := parts[|parts| - 1];
            |last| <= |t| && t[|t| - |last|..] == last
  {
    if |parts| > 1 {
      JoinEndsWithLast(parts[1..], sep);
      var t := Join(parts, sep);
      var u := Join(parts[1..], sep);
      var last := parts[|parts| - 1];
      assert t == parts[0] + [sep] + u;
      assert t[|t| - |last|..] == u[|u| - |last|..];
    }
  }

  /** The printed cells of row i, in column order. */
  function RowCells(m: Matrix, i: nat, show: real -> string): (cells: seq<string>)
    requires m.Valid() && i < m.rows
    ensures |cells| == m.cols
  {
    seq(m.cols, j requires 0 <= j < m.cols => show(m.At(i, j)))
  }

  /** The text of every row, in row order. */
  function RowTexts(m: Matrix, show: real -> string): (lines: seq<string>)
    requires m.Valid()
    ensures |lines| == m.rows
  {
    seq(m.rows, i requires 0 <= i < m.rows => Join(RowCells(m, i, show), ' '))
  }

  /** The whole text form of m. */
  function Text(m: Matrix, show: real -> string): string
    requires m.Valid()
  {
    Join(RowTexts(m, show), '\n')
  }

  /** The cells of row i as `os << m` writes them: each cell, followed by a
      space unless it is the last of the row. */
  method RenderRow(m: Matrix, i: nat, show: real -> string) returns (line: string)
    requires m.Valid() && i < m.rows
    ensures line == Join(RowCells(m, i, show), ' ')
  {
    var cols := m.cols;
    var cells := RowCells(m, i, show);
    line := "";
    for j := 0 to cols
      invariant line == Join(cells[..j], ' ') + (if 0 < j < cols then " " else "")
    {
      line := line + show(m.At(i, j));
      if j < cols - 1 {
        line := line + " ";
      }
      if j > 0 {
        JoinSnoc(cells[..j], cells[j], ' ');
      }
      assert cells[..j + 1] == cells[..j] + [cells[j]];
    }
    assert cells[..cols] == cells;
  }

  /** `os << m`: writes each row, and a newline after every row but the
      last. */
  method Render(m: Matrix, show: real -> string) returns (s: string)
    requires m.Valid()
    ensures s == Text(m, show)
  {
    var rows := m.rows;
    var lines := RowTexts(m, show);
    s := "";
    for i := 0 to rows
      invariant s == Join(lines[..i], '\n') + (if 0 < i < rows then "\n" else "")
    {
      var line := RenderRow(m, i, show);
      s := s + line;
      if i < rows - 1 {
        s := s + "\n";
      }
      if i > 0 {
        JoinSnoc(lines[..i], lines[i], '\n');
      }
      assert lines[..i + 1] == lines[..i] + [lines[i]];
    }
    assert lines[..rows] == lines;
  }

  /** When no printed number contains a space or a newline, the text splits
      back into exactly the rows, and each row into exactly its cells. */
  lemma TextRoundTrip(m: Matrix, show: real -> string)
    requires m.Valid() && m.rows > 0 && m.cols > 0
    requires forall x :: ' ' !in show(x) && '\n' !in show(x)
    ensures Split(Text(m, show), '\n') == RowTexts(m, show)
    ensures forall i :: 0 <= i < m.rows ==> Split(RowTexts(m, show)[i], ' ') == RowCells(m, i, show)
  {
    var lines := RowTexts(m, show);
    forall i | 0 <= i < m.rows
      ensures '\n' !in lines[i] && Split(lines[i], ' ') == RowCells(m, i, show)
    {
      JoinAvoids(RowCells(m, i, show), ' ', '\n');
      SplitJoin(RowCells(m, i, show), ' ');
    }
    SplitJoin(lines, '\n');
  }

  /** The text ends with the last printed cell of the last row, so neither a
      space nor a newline trails it. */
  lemma TextEndsWithLastCell(m: Matrix, show: real -> string)
    requires m.Valid() && m.rows > 0 && m.cols > 0
    ensures var t := Text(m, show);
            var last := show(m.At(m.rows - 1, m.cols - 1));
            |last| <= |t| && t[|t| - |last|..] == last
  {
    var lines := RowTexts(m, show);
    var cells := RowCells(m, m.rows - 1, show);
    JoinEndsWithLast(lines, '\n');
    JoinEndsWithLast(cells, ' ');
    var t := Text(m, show);
    var line := lines[m.rows - 1];
    var last := cells[m.cols - 1];
    assert t[|t| - |last|..] == line[|line| - |last|..];
  }
}
