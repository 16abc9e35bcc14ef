/** The baseline file: written at build time, read back at every save and restore. */
module Baseline {
  import opened Options
  import opened Texts
  import opened Identity

  const ID_TAG := "#build"

  /** The lines of a file, each without its newline; a last one may lack it. */
  function FileLines(s: string): seq<string> {
    var pieces := Split(s, NEWLINE);
    if pieces[|pieces| - 1] == "" then pieces[..|pieces| - 1] else pieces
  }

  lemma LinesEnded(lines: seq<string>)
    requires Free(lines, NEWLINE)
    ensures FileLines(Ended(lines, NEWLINE)) == lines
  {
    SplitEnded(lines, NEWLINE);
  }

  // ---- ids ----------------------------------------------------------------

  predicate ValidId(ident: string) {
    |ident| == 64 && forall c :: c in ident ==> '0' <= c <= '9' || 'a' <= c <= 'f'
  }

  /** `header_id`: the tag, a tab, and an id - or no id at all. */
  function HeaderId(line: string): Option<string> {
    if |line| > |ID_TAG| && line[..|ID_TAG|] == ID_TAG && line[|ID_TAG|] == TAB && ValidId(line[|ID_TAG| + 1..])
    then Some(line[|ID_TAG| + 1..]) else None
  }

  /** Sixty-four lower-case hexadecimal digits. */
  predicate Hex64(ident: string) {
    |ident| == 64 && forall i | 0 <= i < 64 :: ident[i] in "0123456789abcdef"
  }

  lemma HexDigit(c: char)
    ensures c in "0123456789abcdef" <==> '0' <= c <= '9' || 'a' <= c <= 'f'
  {
    var digits := "0123456789abcdef";
    if '0' <= c <= '9' {
      assert digits[c as int - '0' as int] == c;
    }
    if 'a' <= c <= 'f' {
      assert digits[c as int - 'a' as int + 10] == c;
    }
  }

  lemma ValidIsHex(ident: string)
    ensures ValidId(ident) <==> Hex64(ident)
  {
    forall c ensures c in "0123456789abcdef" <==> '0' <= c <= '9' || 'a' <= c <= 'f' {
      HexDigit(c);
    }
    assert forall i | 0 <= i < |ident| :: ident[i] in ident;
  }

  /** An id is read off a line just when the line is the tag, a tab and sixty-four digits. */
  lemma HeaderRead(line: string, ident: string)
    ensures HeaderId(line) == Some(ident) <==> Hex64(ident) && line == ID_TAG + [TAB] + ident
  {
    ValidIsHex(ident);
    if HeaderId(line) == Some(ident) {
      assert line == line[..|ID_TAG|] + [line[|ID_TAG|]] + line[|ID_TAG| + 1..];
    }
    if line == ID_TAG + [TAB] + ident {
      assert line[..|ID_TAG|] == ID_TAG && line[|ID_TAG| + 1..] == ident;
    }
  }

  // ---- written and read ----------------------------------------------------

  function RowLine(r: Row): string { Joined([r.path] + r.stamp, TAB) }

  function RowLines(rows: seq<Row>): (l: seq<string>)
    ensures |l| == |rows|
  {
    seq(|rows|, i requires 0 <= i < |rows| => RowLine(rows[i]))
  }

  /** What `cmd_baseline` writes. */
  function File(rows: seq<Row>, ident: string): string {
    Ended([ID_TAG + [TAB] + ident] + RowLines(rows), NEWLINE)
  }

  predicate StartsTagged(line: string) {
    |line| > |ID_TAG| && line[..|ID_TAG| + 1] == ID_TAG + [TAB]
  }

  /** `read_baseline`, line by line: the id from a tagged first line, a stamp from every
      other line of four fields. */
  method ReadBaseline(file: string) returns (base: map<string, seq<string>>, ident: Option<string>)
    ensures var lines := FileLines(file);
            var tagged := lines != [] && StartsTagged(lines[0]);
            ident == (if tagged then HeaderId(lines[0]) else None)
            && base == Entries(if tagged then lines[1..] else lines)
  {
    base, ident := map[], None;
    var lines := FileLines(file);
    ghost var tagged := lines != [] && StartsTagged(lines[0]);
    ghost var body := if tagged then lines[1..] else lines;
    for i := 0 to |lines|
      invariant i == 0 ==> ident.None? && base == map[]
      invariant i > 0 ==> ident == if tagged then HeaderId(lines[0]) else None
      invariant i > 0 ==> base == Entries(if tagged then lines[1..i] else lines[..i])
    {
      if i == 0 && StartsTagged(lines[i]) {
        ident := HeaderId(lines[i]);
        assert lines[1..1] == [];
      } else {
        var parts := Split(lines[i], TAB);
        if |parts| == 4 {
          base := base[parts[0] := parts[1..]];
        }
        ghost var before := if tagged then lines[1..i] else lines[..i];
        assert (if tagged then lines[1..i + 1] else lines[..i + 1]) == before + [lines[i]];
        EntriesAppended(before, lines[i]);
        assert i == 0 ==> before == [];
      }
    }
    assert lines != [] ==> (if tagged then lines[1..|lines|] else lines[..|lines|]) == body;
  }

  function Entry(line: string, base: map<string, seq<string>>): map<string, seq<string>> {
    var parts := Split(line, TAB);
    if |parts| == 4 then base[parts[0] := parts[1..]] else base
  }

  function Entries(lines: seq<string>): map<string, seq<string>> {
    if lines == [] then map[]
    else Entry(lines[|lines| - 1], Entries(lines[..|lines| - 1]))
  }

  lemma EntriesAppended(lines: seq<string>, line: string)
    ensures Entries(lines + [line]) == Entry(line, Entries(lines))
  {
    assert (lines + [line])[..|lines|] == lines;
  }

  /** The stamps the rows say, by path. */
  function Stamps(rows: seq<Row>): map<string, seq<string>> {
    if rows == [] then map[]
    else Stamps(rows[..|rows| - 1])[rows[|rows| - 1].path := rows[|rows| - 1].stamp]
  }

  lemma {:induction false} EntriesOfRows(rows: seq<Row>)
    requires forall r :: r in rows ==> CleanRow(r)
    ensures Entries(RowLines(rows)) == Stamps(rows)
  {
    if rows != [] {
      var m := |rows| - 1;
      assert rows[m] in rows;
      EntriesOfRows(rows[..m]);
      assert RowLines(rows) == RowLines(rows[..m]) + [RowLine(rows[m])];
      EntriesAppended(RowLines(rows[..m]), RowLine(rows[m]));
      var f := [rows[m].path] + rows[m].stamp;
      SplitJoined(f, TAB);
      assert f[1..] == rows[m].stamp;
    }
  }

  lemma RowLinesFree(rows: seq<Row>)
    requires forall r :: r in rows ==> CleanRow(r)
    ensures Free(RowLines(rows), NEWLINE)
  {
    var l := RowLines(rows);
    forall i | 0 <= i < |l| ensures NEWLINE !in l[i] {
      assert rows[i] in rows;
      JoinedFree([rows[i].path] + rows[i].stamp, TAB, NEWLINE);
    }
  }

  /** What was written is what is read: every row's stamp under its path, and the id. */
  lemma ReadsBack(rows: seq<Row>, ident: string)
    requires (forall r :: r in rows ==> CleanRow(r)) && ValidId(ident)
    ensures var lines := FileLines(File(rows, ident));
            && lines != [] && StartsTagged(lines[0]) && HeaderId(lines[0]) == Some(ident)
            && Entries(lines[1..]) == Stamps(rows)
  {
    var head := ID_TAG + [TAB] + ident;
    RowLinesFree(rows);
    assert NEWLINE !in head by {
      assert NEWLINE !in ident;
    }
    LinesEnded([head] + RowLines(rows));
    var lines := FileLines(File(rows, ident));
    assert lines == [head] + RowLines(rows);
    assert lines[1..] == RowLines(rows);
    assert head[|ID_TAG| + 1..] == ident && head[..|ID_TAG| + 1] == ID_TAG + [TAB];
    assert head[..|ID_TAG|] == ID_TAG;
    EntriesOfRows(rows);
  }

  /** With one row to a path, the stamps are just those. */
  lemma {:induction false} StampsAreTheRows(rows: seq<Row>)
    requires Distinct(rows)
    ensures Stamps(rows).Keys == set r | r in rows :: r.path
    ensures forall r :: r in rows ==> Stamps(rows)[r.path] == r.stamp
  {
    if rows != [] {
      var m := |rows| - 1;
      StampsAreTheRows(rows[..m]);
      assert rows == rows[..m] + [rows[m]];
    }
  }
}
