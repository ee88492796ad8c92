/**
 * The ledger of PIX recharges (automation/google_sheets.py): a local text
 * file `recargas.txt` holding one comma-separated record per line, and the
 * daily tab of a spreadsheet into which the file's records are copied one
 * row at a time.
 *
 * The file is its contents as a string, split into lines the way Python's
 * file iteration does. A worksheet is column A as the spreadsheet service
 * reports it (`col_values(1)`: every cell from row 1 down to the last
 * non-empty one) together with the log of row writes made to it; cell
 * formatting, colours, borders and column widths are not modelled.
 */
module Ledger {
  import opened Wrappers
  import opened PyText

  // ---------------------------------------------------------------------
  // The line format of recargas.txt
  // ---------------------------------------------------------------------

  /** The three fields of a ledger line, in file order. */
  datatype Record = Record(nome: string, valor: string, cartao: string)

  /** Why reading a ledger line (or the file) raised. */
  datatype LedgerError =
    | UnpackError(parts: nat)   // `nome, valor, cartao = ...` got this many values instead of 3
    | FloatError(text: string)  // `float(text)` raised ValueError
    | FileMissing               // `open("recargas.txt", "r")` raised FileNotFoundError

  /**
   * The line `adicionar_recarga_txt` writes: `nome,valor,cartao` and a
   * newline. It ends the line, and is one whole line of the file when no
   * field holds a newline; `DecodeLine` reads it back (`DecodeEncodedRecord`).
   */
  function EncodeRecord(nome: string, valor: string, cartao: string): (line: string)
    ensures line != [] && line[|line| - 1] == '\n'
    ensures '\n' !in nome && '\n' !in valor && '\n' !in cartao ==> IsLine(line)
  {
    var body := nome + "," + valor + "," + cartao;
    assert (body + "\n")[..|body|] == body;
    body + "\n"
  }

  /**
   * `linha.replace("\n", "")` followed by `nome, valor, cartao = linha_limpa.split(",")`:
   * succeeds exactly when the line, newlines removed, holds exactly two commas.
   */
  function DecodeLine(line: string): (r: Result<Record, LedgerError>)
    ensures r.Success? <==> Count(RemoveChar(line, '\n'), ',') == 2
    ensures r.Success? ==> ',' !in r.value.nome && ',' !in r.value.valor && ',' !in r.value.cartao
    ensures r.Success? ==> RemoveChar(line, '\n') == r.value.nome + "," + r.value.valor + "," + r.value.cartao
    ensures r.Failure? ==> r.error == UnpackError(Count(RemoveChar(line, '\n'), ',') + 1)
  {
    var parts := Split(RemoveChar(line, '\n'), ',');
    if |parts| == 3 then
      assert parts[1..][1..] == [parts[2]];
      assert Join(parts[1..], ',') == parts[1] + [','] + parts[2];
      assert Join(parts, ',') == parts[0] + [','] + Join(parts[1..], ',');
      Success(Record(parts[0], parts[1], parts[2]))
    else
      Failure(UnpackError(|parts|))
  }

  /** Number of commas in a record's three fields together. */
  function FieldCommas(nome: string, valor: string, cartao: string): nat
  {
    Count(nome, ',') + Count(valor, ',') + Count(cartao, ',')
  }

  /**
   * Round trip: a line written by `adicionar_recarga_txt` reads back as the
   * same three fields whenever no field contains a comma or a newline.
   */
  lemma {:induction false} DecodeEncodedRecord(nome: string, valor: string, cartao: string)
    requires ',' !in nome && ',' !in valor && ',' !in cartao
    requires '\n' !in nome && '\n' !in valor && '\n' !in cartao
    ensures DecodeLine(EncodeRecord(nome, valor, cartao)) == Success(Record(nome, valor, cartao))
  {
    var body := nome + "," + valor + "," + cartao;
    StripFinalNewline(body);
    assert EncodeRecord(nome, valor, cartao) == body + "\n";
    assert body == nome + [','] + (valor + [','] + cartao);
    SplitAfterField(nome, ',', valor + [','] + cartao);
    SplitAfterField(valor, ',', cartao);
    SplitNoSeparator(cartao, ',');
  }

  lemma {:induction false} StripFinalNewline(body: string)
    requires '\n' !in body
    ensures RemoveChar(body + "\n", '\n') == body
  {
    if body == [] {
      assert body + "\n" == "\n";
    } else {
      assert (body + "\n")[1..] == body[1..] + "\n";
      StripFinalNewline(body[1..]);
      assert [body[0]] + body[1..] == body;
    }
  }

  /**
   * A comma inside any field breaks the round trip: the line splits into
   * three parts plus one per such comma, and the three-way unpacking raises.
   */
  lemma {:induction false} CommaInFieldBreaksDecode(nome: string, valor: string, cartao: string)
    requires '\n' !in nome && '\n' !in valor && '\n' !in cartao
    requires FieldCommas(nome, valor, cartao) > 0
    ensures DecodeLine(EncodeRecord(nome, valor, cartao))
            == Failure(UnpackError(FieldCommas(nome, valor, cartao) + 3))
  {
    var body := nome + "," + valor + "," + cartao;
    StripFinalNewline(body);
    assert EncodeRecord(nome, valor, cartao) == body + "\n";
    EncodedCommas(nome, valor, cartao);
  }

  /** The commas of an encoded record's body: the fields' own and the two separators. */
  lemma EncodedCommas(nome: string, valor: string, cartao: string)
    ensures Count(nome + "," + valor + "," + cartao, ',') == FieldCommas(nome, valor, cartao) + 2
  {
    var tail2 := "," + cartao;
    var tail1 := valor + tail2;
    var tail0 := "," + tail1;
    assert nome + "," + valor + "," + cartao == nome + tail0;
    CountAppend(",", cartao, ',');
    CountAppend(valor, tail2, ',');
    CountAppend(",", tail1, ',');
    CountAppend(nome, tail0, ',');
    assert Count(",", ',') == 1;
  }

  /**
   * The `valor` field produced by the split never holds a comma, so the
   * `valor.replace(",", ".")` applied before `float(...)` leaves it unchanged.
   */
  lemma DecodedValueUnchangedByReplace(line: string)
    requires DecodeLine(line).Success?
    ensures ReplaceChar(DecodeLine(line).value.valor, ',', '.') == DecodeLine(line).value.valor
  {
    var v := DecodeLine(line).value.valor;
    assert forall i :: 0 <= i < |v| ==> v[i] != ',';
  }

  // ---------------------------------------------------------------------
  // recargas.txt
  // ---------------------------------------------------------------------

  /** The local file `recargas.txt`: whether it exists, and what it holds. */
  class LedgerFile {
    var present: bool
    var content: string

    ghost predicate Valid()
      reads this
    {
      !present ==> content == []
    }

    constructor (present: bool, content: string)
      requires !present ==> content == []
      ensures Valid() && this.present == present && this.content == content
    {
      this.present := present;
      this.content := content;
    }

    /**
     * `adicionar_recarga_txt(nome, valor, cartao)`: appends one encoded line
     * to an existing file, or creates the file holding just that line.
     */
    method AppendRecord(nome: string, valor: string, cartao: string)
      requires Valid()
      modifies this
      ensures Valid() && present
      ensures content == old(content) + EncodeRecord(nome, valor, cartao)
    {
      if present {
        content := content + EncodeRecord(nome, valor, cartao);
      } else {
        present := true;
        content := EncodeRecord(nome, valor, cartao);
      }
    }
  }

  /**
   * After an append to a file that is empty or ends in a newline, iterating
   * over the file yields the earlier lines followed by exactly the new
   * record's line, provided no field holds a newline.
   */
  lemma AppendedRecordIsLastLine(content: string, nome: string, valor: string, cartao: string)
    requires content == [] || content[|content| - 1] == '\n'
    requires '\n' !in nome && '\n' !in valor && '\n' !in cartao
    ensures Lines(content + EncodeRecord(nome, valor, cartao))
            == Lines(content) + [EncodeRecord(nome, valor, cartao)]
  {
    var line := EncodeRecord(nome, valor, cartao);
    assert line[..|line| - 1] == nome + "," + valor + "," + cartao;
    LinesAppendLine(content, line);
  }

  // ---------------------------------------------------------------------
  // Rows derived from the file
  // ---------------------------------------------------------------------

  /** The three cells written to columns A, B and C of one row. */
  datatype Row = Row(name: string, amount: string, card: string)

  /** One `ws.update(f"A{r}:C{r}", [[...]])` call: the row number and its cells. */
  datatype RowUpdate = RowUpdate(row: nat, cells: Row)

  /**
   * The row one file line becomes (line 196): the upper-cased name, the
   * amount and the card. The line must unpack into three fields, and the
   * amount, once `replace(",", ".")` has run, must be a Python float
   * literal; as the amount can hold no comma, that replacement never
   * changes it. Otherwise the unpacking's or `float(...)`'s error is raised.
   */
  function RowFromLine(line: string): (r: Result<Row, LedgerError>)
    ensures r.Success? <==> DecodeLine(line).Success? && IsPyFloat(DecodeLine(line).value.valor)
    ensures r.Success? ==> var rec := DecodeLine(line).value; r.value == Row(Upper(rec.nome), rec.valor, rec.cartao)
    ensures DecodeLine(line).Failure? ==> r == Failure(UnpackError(Count(RemoveChar(line, '\n'), ',') + 1))
    ensures DecodeLine(line).Success? && r.Failure? ==> r.error == FloatError(DecodeLine(line).value.valor)
  {
    match DecodeLine(line)
    case Failure(e) => Failure(e)
    case Success(rec) =>
      DecodedValueUnchangedByReplace(line);
      var text := ReplaceChar(rec.valor, ',', '.');
      if IsPyFloat(text) then Success(Row(Upper(rec.nome), text, rec.cartao))
      else Failure(FloatError(text))
  }

  /**
   * A line written by `adicionar_recarga_txt` with comma-free, newline-free
   * fields and a float literal for the amount becomes the row of those
   * fields, the name upper-cased.
   */
  lemma RowOfEncodedRecord(nome: string, valor: string, cartao: string)
    requires ',' !in nome && ',' !in valor && ',' !in cartao
    requires '\n' !in nome && '\n' !in valor && '\n' !in cartao
    requires IsPyFloat(valor)
    ensures RowFromLine(EncodeRecord(nome, valor, cartao)) == Success(Row(Upper(nome), valor, cartao))
  {
    DecodeEncodedRecord(nome, valor, cartao);
  }

  /** `col_values` never ends in an empty cell. */
  predicate NoTrailingEmpty(column: seq<string>)
  {
    column == [] || column[|column| - 1] != []
  }

  /** The text of cell A`i + 1` of a column read as `col_values` reports it: empty below its end. */
  function Cell(column: seq<string>, i: nat): string
  {
    if i < |column| then column[i] else []
  }

  /** Drops the empty cells at the end of a column, as `col_values` omits them. */
  function DropTrailingEmpty(column: seq<string>): (r: seq<string>)
    ensures NoTrailingEmpty(r)
    ensures |r| <= |column|
  {
    if column != [] && column[|column| - 1] == [] then DropTrailingEmpty(column[..|column| - 1])
    else column
  }

  /** What `DropTrailingEmpty` leaves is a prefix of the column, and every cell it drops was empty. */
  lemma {:induction false} DropTrailingEmptyDropsOnlyEmpty(column: seq<string>)
    ensures var r := DropTrailingEmpty(column);
            && r == column[..|r|]
            && forall i :: |r| <= i < |column| ==> column[i] == []
  {
    if column != [] && column[|column| - 1] == [] {
      DropTrailingEmptyDropsOnlyEmpty(column[..|column| - 1]);
    }
  }

  /** Column A as `col_values(1)` reports it after cell A`r` is set to `v`. */
  function SetCell(column: seq<string>, r: nat, v: string): (c: seq<string>)
    requires r >= 1
    ensures NoTrailingEmpty(c)
  {
    var padded := if r <= |column| then column else column + seq(r - |column|, _ => []);
    DropTrailingEmpty(padded[r - 1 := v])
  }

  /**
   * Setting cell A`r` to `v`: afterwards cell A`r` reads `v` and every other
   * cell reads as before.
   */
  lemma SetCellReads(column: seq<string>, r: nat, v: string)
    requires r >= 1
    ensures Cell(SetCell(column, r, v), r - 1) == v
    ensures forall i: nat :: i != r - 1 ==> Cell(SetCell(column, r, v), i) == Cell(column, i)
  {
    var padded := if r <= |column| then column else column + seq(r - |column|, _ => []);
    var p := padded[r - 1 := v];
    var c := SetCell(column, r, v);
    assert c == DropTrailingEmpty(p);
    DropTrailingEmptyDropsOnlyEmpty(p);
    forall i: nat
      ensures Cell(c, i) == Cell(p, i)
    {
      if i < |c| {
        assert c[i] == p[i];
      }
    }
    forall i: nat | i != r - 1
      ensures Cell(p, i) == Cell(column, i)
    {
      if i < |column| {
        assert p[i] == column[i];
      }
    }
  }

  /**
   * Writing the first row below a column that has no trailing empty cell
   * lengthens the column by that value, unless the value is empty: then
   * the column is reported unchanged, and the next `len(col_values(1)) + 1`
   * points at the same row again.
   */
  lemma SetNextCell(column: seq<string>, v: string)
    requires NoTrailingEmpty(column)
    ensures SetCell(column, |column| + 1, v) == if v == [] then column else column + [v]
  {
    var padded := column + [[]];
    assert column + seq(1, _ => []) == padded;
    var p := padded[|column| := v];
    assert p == column + [v];
    if v == [] {
      assert p[..|p| - 1] == column;
      assert DropTrailingEmpty(p) == DropTrailingEmpty(column);
      assert DropTrailingEmpty(column) == column;
    } else {
      assert DropTrailingEmpty(p) == p;
    }
  }

  /** What reading one line yields: its row, or the exception it raises. */
  type RowResult = Result<Row, LedgerError>

  /** The row result of each line, in file order. */
  function RowsOf(lines: seq<string>): (rows: seq<RowResult>)
    ensures |rows| == |lines|
  {
    seq(|lines|, k requires 0 <= k < |lines| => RowFromLine(lines[k]))
  }

  /** The rows of two runs of lines are the rows of each, in order. */
  lemma RowsOfAppend(a: seq<string>, b: seq<string>)
    ensures RowsOf(a + b) == RowsOf(a) + RowsOf(b)
  {
    var ab := a + b;
    forall k | 0 <= k < |ab|
      ensures RowsOf(ab)[k] == (RowsOf(a) + RowsOf(b))[k]
    {
      if k < |a| {
        assert ab[k] == a[k];
      } else {
        assert ab[k] == b[k - |a|];
      }
    }
  }

  /** What copying a list of file lines into a worksheet produces. */
  datatype Replay = Replay(columnA: seq<string>, updates: seq<RowUpdate>, error: Option<LedgerError>)

  /**
   * The loop of lines 192-197 over the lines' row results, starting from
   * column A: each line computes `next_row = len(col_values(1)) + 1` and
   * writes its row there; the first line that raises ends the loop, rows
   * already written staying written.
   */
  function ReplayRows(columnA: seq<string>, rows: seq<RowResult>): (r: Replay)
    ensures |r.updates| <= |rows|
    decreases |rows|
  {
    if rows == [] then Replay(columnA, [], None)
    else match rows[0]
      case Failure(e) => Replay(columnA, [], Some(e))
      case Success(row) =>
        var next := |columnA| + 1;
        var rest := ReplayRows(SetCell(columnA, next, row.name), rows[1..]);
        Replay(rest.columnA, [RowUpdate(next, row)] + rest.updates, rest.error)
  }

  /**
   * The replay stops exactly at the first line that raises: it wrote one
   * row per line before that line, and its exception is that line's.
   */
  lemma {:induction false} ReplayStopsAtFirstError(columnA: seq<string>, rows: seq<RowResult>)
    ensures var r := ReplayRows(columnA, rows);
            && (r.error.None? <==> |r.updates| == |rows|)
            && (r.error.Some? ==> rows[|r.updates|] == Failure(r.error.value))
            && forall i :: 0 <= i < |r.updates| ==> rows[i].Success? && r.updates[i].cells == rows[i].value
    decreases |rows|
  {
    if rows != [] && rows[0].Success? {
      var row := rows[0].value;
      var rest := ReplayRows(SetCell(columnA, |columnA| + 1, row.name), rows[1..]);
      ReplayStopsAtFirstError(SetCell(columnA, |columnA| + 1, row.name), rows[1..]);
      var r := ReplayRows(columnA, rows);
      forall i | 0 <= i < |r.updates| ensures rows[i].Success? && r.updates[i].cells == rows[i].value {
        if i > 0 {
          assert r.updates[i] == rest.updates[i - 1];
          assert rows[i] == rows[1..][i - 1];
        }
      }
      if r.error.Some? {
        assert rows[|r.updates|] == rows[1..][|rest.updates|];
      }
    }
  }

  /** Replaying `a + b` is replaying `a`, then, unless `a` raised, replaying `b` from where `a` left column A. */
  lemma {:induction false} ReplayAppend(columnA: seq<string>, a: seq<RowResult>, b: seq<RowResult>)
    ensures var ra := ReplayRows(columnA, a);
            ReplayRows(columnA, a + b)
            == if ra.error.Some? then ra
               else var rb := ReplayRows(ra.columnA, b); Replay(rb.columnA, ra.updates + rb.updates, rb.error)
    decreases |a|
  {
    if a == [] {
      assert a + b == b;
    } else {
      assert (a + b)[0] == a[0];
      assert (a + b)[1..] == a[1..] + b;
      match a[0]
      case Failure(e) =>
      case Success(row) =>
        var c1 := SetCell(columnA, |columnA| + 1, row.name);
        ReplayAppend(c1, a[1..], b);
        var ra1 := ReplayRows(c1, a[1..]);
        if ra1.error.None? {
          var rb := ReplayRows(ra1.columnA, b);
          assert [RowUpdate(|columnA| + 1, row)] + (ra1.updates + rb.updates)
              == ([RowUpdate(|columnA| + 1, row)] + ra1.updates) + rb.updates;
        }
    }
  }

  /**
   * Replaying the rows from the `i`-th on, when that row parses: it is
   * written just below `columnA`, then the rest are replayed from there.
   */
  lemma ReplayFromRow(columnA: seq<string>, rows: seq<RowResult>, i: nat, row: Row)
    requires i < |rows| && rows[i] == Success(row)
    ensures var rest := ReplayRows(SetCell(columnA, |columnA| + 1, row.name), rows[i + 1..]);
            ReplayRows(columnA, rows[i..]) == Replay(rest.columnA, [RowUpdate(|columnA| + 1, row)] + rest.updates, rest.error)
  {
    assert rows[i..][0] == rows[i];
    assert rows[i..][1..] == rows[i + 1..];
  }

  /** Every line yields a row, and every row's name is non-empty. */
  predicate AllRowsNamed(rows: seq<RowResult>)
  {
    forall i :: 0 <= i < |rows| ==> rows[i].Success? && rows[i].value.name != []
  }

  /** The column A values of a list of rows (empty for a line that raised). */
  function Names(rows: seq<RowResult>): (names: seq<string>)
    ensures |names| == |rows|
  {
    if rows == [] then [] else [if rows[0].Success? then rows[0].value.name else []] + Names(rows[1..])
  }

  lemma {:induction false} NamesLast(rows: seq<RowResult>)
    requires rows != [] && rows[|rows| - 1].Success?
    ensures Names(rows)[|rows| - 1] == rows[|rows| - 1].value.name
  {
    if |rows| > 1 {
      NamesLast(rows[1..]);
    }
  }

  /**
   * For PIX each file line, in file order, becomes one row holding its
   * upper-cased name and unchanged card; when every name is non-empty the
   * rows are consecutive, starting just below column A's last cell.
   */
  lemma {:induction false} ReplayWritesConsecutiveRows(columnA: seq<string>, rows: seq<RowResult>)
    requires NoTrailingEmpty(columnA)
    requires AllRowsNamed(rows)
    ensures var r := ReplayRows(columnA, rows);
            && r.error.None?
            && |r.updates| == |rows|
            && r.columnA == columnA + Names(rows)
            && forall i :: 0 <= i < |rows| ==> r.updates[i] == RowUpdate(|columnA| + 1 + i, rows[i].value)
    decreases |rows|
  {
    if rows != [] {
      var row := rows[0].value;
      SetNextCell(columnA, row.name);
      var c1 := columnA + [row.name];
      var tail := rows[1..];
      assert AllRowsNamed(tail) by {
        forall i | 0 <= i < |tail| ensures tail[i].Success? && tail[i].value.name != [] {
          assert tail[i] == rows[i + 1];
        }
      }
      ReplayWritesConsecutiveRows(c1, tail);
      var rest := ReplayRows(c1, tail);
      var r := ReplayRows(columnA, rows);
      assert rows[0] == Success(row);
      assert SetCell(columnA, |columnA| + 1, row.name) == c1;
      assert r == Replay(rest.columnA, [RowUpdate(|columnA| + 1, row)] + rest.updates, rest.error);
      assert columnA + Names(rows) == c1 + Names(tail);
      forall i | 0 <= i < |rows|
        ensures r.updates[i] == RowUpdate(|columnA| + 1 + i, rows[i].value)
      {
        if i > 0 {
          assert r.updates[i] == rest.updates[i - 1];
          assert tail[i - 1] == rows[i];
        }
      }
    }
  }

  /**
   * A line whose name field is empty writes its row, but column A does not
   * grow, so the following line is written over the same row.
   */
  lemma EmptyNameRowIsOverwritten(columnA: seq<string>, first: Row, second: Row)
    requires NoTrailingEmpty(columnA)
    requires first.name == []
    ensures var r := ReplayRows(columnA, [Success(first), Success(second)]);
            |r.updates| == 2 && r.updates[0].row == r.updates[1].row == |columnA| + 1
  {
    SetNextCell(columnA, []);
    var rows: seq<RowResult> := [Success(first), Success(second)];
    assert rows[1..] == [Success(second)];
    assert rows[1..][1..] == [];
  }

  /**
   * The copy is not idempotent: each call re-reads the whole file, so a
   * second call over the same lines writes every row a second time, below
   * the first copy.
   */
  lemma ReplayTwiceWritesEveryRowTwice(columnA: seq<string>, rows: seq<RowResult>)
    requires NoTrailingEmpty(columnA)
    requires AllRowsNamed(rows)
    ensures var first := ReplayRows(columnA, rows);
            var second := ReplayRows(first.columnA, rows);
            && |first.updates| == |second.updates| == |rows|
            && forall i :: 0 <= i < |rows| ==>
                 second.updates[i].cells == first.updates[i].cells
                 && second.updates[i].row == first.updates[i].row + |rows|
  {
    ReplayWritesConsecutiveRows(columnA, rows);
    var first := ReplayRows(columnA, rows);
    assert NoTrailingEmpty(first.columnA) by {
      if rows != [] {
        NamesLast(rows);
      }
    }
    ReplayWritesConsecutiveRows(first.columnA, rows);
  }

  /**
   * A record with a comma inside a field, once appended to the ledger,
   * breaks every later synchronisation: replaying the file writes exactly
   * the rows of the lines before it and then raises, at that line with the
   * unpacking error if no earlier line raised first.
   */
  lemma CommaRecordStopsReplay(columnA: seq<string>, content: string, nome: string, valor: string, cartao: string)
    requires content == [] || content[|content| - 1] == '\n'
    requires '\n' !in nome && '\n' !in valor && '\n' !in cartao
    requires FieldCommas(nome, valor, cartao) > 0
    ensures var before := ReplayRows(columnA, RowsOf(Lines(content)));
            var after := ReplayRows(columnA, RowsOf(Lines(content + EncodeRecord(nome, valor, cartao))));
            && after.error.Some?
            && after.updates == before.updates
            && (before.error.None? ==> after.error == Some(UnpackError(FieldCommas(nome, valor, cartao) + 3)))
  {
    var line := EncodeRecord(nome, valor, cartao);
    AppendedRecordIsLastLine(content, nome, valor, cartao);
    CommaInFieldBreaksDecode(nome, valor, cartao);
    RowsOfAppend(Lines(content), [line]);
    assert RowsOf([line]) == [Failure(UnpackError(FieldCommas(nome, valor, cartao) + 3))];
    ReplayAppend(columnA, RowsOf(Lines(content)), RowsOf([line]));
  }

  // ---------------------------------------------------------------------
  // Worksheets and the daily tab
  // ---------------------------------------------------------------------

  const TitleCell := "RECARGAS VIA PIX"
  const HeaderRow := Row("NOME DO PAGADOR", "VALOR", "CART\U{00C3}O")

  /** One tab of the spreadsheet. */
  class Worksheet {
    const title: string
    var columnA: seq<string>       // what `col_values(1)` returns
    var updates: seq<RowUpdate>    // the `update("A{r}:C{r}", ...)` calls made, in order

    ghost predicate Valid()
      reads this
    {
      NoTrailingEmpty(columnA)
    }

    /** `add_worksheet(title=...)`: a new, empty tab. */
    constructor (title: string)
      ensures Valid() && this.title == title && columnA == [] && updates == []
    {
      this.title := title;
      columnA := [];
      updates := [];
    }

    /** `ws.update(f"A{r}:C{r}", [[name, amount, card]])`. */
    method UpdateRow(r: nat, cells: Row)
      requires r >= 1
      modifies this
      ensures Valid()
      ensures columnA == SetCell(old(columnA), r, cells.name)
      ensures updates == old(updates) + [RowUpdate(r, cells)]
    {
      columnA := SetCell(columnA, r, cells.name);
      updates := updates + [RowUpdate(r, cells)];
    }

    /**
     * The part of the new tab's layout that lands in column A: the title in
     * A1 (`update_acell`) and the header row in A2:C2.
     */
    method WriteHeader()
      requires columnA == [] && updates == []
      modifies this
      ensures Valid()
      ensures columnA == [TitleCell, HeaderRow.name]
      ensures updates == [RowUpdate(2, HeaderRow)]
    {
      columnA := SetCell(columnA, 1, TitleCell);
      assert columnA == [TitleCell];
      UpdateRow(2, HeaderRow);
      SetNextCell([TitleCell], HeaderRow.name);
    }
  }

  /** Whether a tab title is today's or yesterday's date string (line 25). */
  predicate IsCurrentTitle(title: string, today: string, yesterday: string)
  {
    title == today || title == yesterday
  }

  /** Index of the first title that is today's or yesterday's, if any. */
  function FirstCurrentTab(titles: seq<string>, today: string, yesterday: string): (r: Option<nat>)
    ensures r.Some? ==> r.value < |titles| && IsCurrentTitle(titles[r.value], today, yesterday)
    ensures r.Some? ==> forall j :: 0 <= j < r.value ==> !IsCurrentTitle(titles[j], today, yesterday)
    ensures r.None? <==> forall j :: 0 <= j < |titles| ==> !IsCurrentTitle(titles[j], today, yesterday)
  {
    if titles == [] then None
    else if IsCurrentTitle(titles[0], today, yesterday) then Some(0)
    else match FirstCurrentTab(titles[1..], today, yesterday)
      case None =>
        assert forall j :: 1 <= j < |titles| ==> titles[j] == titles[1..][j - 1];
        None
      case Some(i) =>
        assert titles[i + 1] == titles[1..][i];
        assert forall j :: 1 <= j < i + 1 ==> titles[j] == titles[1..][j - 1];
        Some(i + 1)
  }

  /**
   * A tab created because no current one existed is the one found by the
   * next lookup on the same day.
   */
  lemma CreatedTabIsFoundNext(titles: seq<string>, today: string, yesterday: string)
    requires FirstCurrentTab(titles, today, yesterday).None?
    ensures FirstCurrentTab(titles + [today], today, yesterday) == Some(|titles|)
  {
    var t := titles + [today];
    assert forall j :: 0 <= j < |titles| ==> t[j] == titles[j];
    assert IsCurrentTitle(t[|titles|], today, yesterday);
  }

  /** The spreadsheet "Recargas PIX e DINHEIRO - Cantina Batistério": its tabs in order. */
  class Spreadsheet {
    var tabs: seq<Worksheet>

    ghost predicate Valid()
      reads this, tabs
    {
      forall i :: 0 <= i < |tabs| ==> tabs[i].Valid()
    }

    constructor (tabs: seq<Worksheet>)
      ensures this.tabs == tabs
    {
      this.tabs := tabs;
    }

    function Titles(): (ts: seq<string>)
      reads this
      ensures |ts| == |tabs| && forall i :: 0 <= i < |tabs| ==> ts[i] == tabs[i].title
    {
      seq(|tabs|, i requires 0 <= i < |tabs| reads this => tabs[i].title)
    }

    /** The search loop of lines 24-27: the first tab titled today's or yesterday's date. */
    method FindCurrentTab(today: string, yesterday: string) returns (found: Option<nat>)
      ensures found == FirstCurrentTab(Titles(), today, yesterday)
    {
      found := None;
      var i := 0;
      while i < |tabs|
        invariant 0 <= i <= |tabs|
        invariant forall j :: 0 <= j < i ==> !IsCurrentTitle(tabs[j].title, today, yesterday)
      {
        if IsCurrentTitle(tabs[i].title, today, yesterday) {
          found := Some(i);
          break;
        }
        i := i + 1;
      }
    }

    /**
     * `get_or_create_sheet` (lines 17-31, with the layout of the new tab
     * reduced to what lands in column A): the first current tab if one
     * present, otherwise a new tab titled with today's date, added last.
     */
    method GetOrCreateSheet(today: string, yesterday: string) returns (ws: Worksheet)
      requires Valid()
      modifies this
      ensures Valid()
      ensures var f := FirstCurrentTab(old(Titles()), today, yesterday);
              && (f.Some? ==> tabs == old(tabs) && ws == tabs[f.value])
              && (f.None? ==> fresh(ws) && tabs == old(tabs) + [ws] && ws.title == today
                              && ws.columnA == [TitleCell, HeaderRow.name]
                              && ws.updates == [RowUpdate(2, HeaderRow)])
    {
      var found := FindCurrentTab(today, yesterday);
      if found.Some? {
        ws := tabs[found.value];
      } else {
        ws := new Worksheet(today);
        ws.WriteHeader();
        tabs := tabs + [ws];
      }
    }
  }

  /** The outcome of `adicionar_recarga`. */
  datatype SyncOutcome =
    | SkippedNotPix              // non-PIX method: a console notice, no rows
    | Copied                     // every line of the file became a row
    | Raised(error: LedgerError) // an exception escaped the loop

  /**
   * One pass of the loop for a line that parses (lines 193 and 196):
   * `next_row = len(col_values(1)) + 1`, then the row is written there.
   * The replay of the remaining lines from the old column A is this row
   * followed by the replay of the lines after it from the new column A.
   */
  method WriteNextRow(ws: Worksheet, row: Row, ghost rows: seq<RowResult>, ghost i: nat) returns (ghost next: Replay)
    requires ws.Valid() && i < |rows| && rows[i] == Success(row)
    modifies ws
    ensures ws.Valid()
    ensures ws.updates == old(ws.updates) + [RowUpdate(|old(ws.columnA)| + 1, row)]
    ensures next == ReplayRows(ws.columnA, rows[i + 1..])
    ensures ReplayRows(old(ws.columnA), rows[i..])
            == Replay(next.columnA, [RowUpdate(|old(ws.columnA)| + 1, row)] + next.updates, next.error)
  {
    ReplayFromRow(ws.columnA, rows, i, row);
    var nextRow := |ws.columnA| + 1;
    ws.UpdateRow(nextRow, row);
    next := ReplayRows(ws.columnA, rows[i + 1..]);
  }

  /**
   * The loop of `adicionar_recarga` (lines 192-197) over the row result of
   * each line, in file order: each row is written at
   * `len(col_values(1)) + 1`; the first line that raises ends the loop.
   */
  method CopyRows(ws: Worksheet, rows: seq<RowResult>) returns (outcome: SyncOutcome)
    requires ws.Valid()
    modifies ws
    ensures ws.Valid()
    ensures var r := ReplayRows(old(ws.columnA), rows);
            && ws.columnA == r.columnA
            && ws.updates == old(ws.updates) + r.updates
            && outcome == (if r.error.Some? then Raised(r.error.value) else Copied)
  {
    ghost var all := ReplayRows(ws.columnA, rows);
    ghost var rest := all;
    var i := 0;
    outcome := Copied;
    while i < |rows|
      invariant 0 <= i <= |rows|
      invariant ws.Valid()
      invariant rest == ReplayRows(ws.columnA, rows[i..])
      invariant all.columnA == rest.columnA && all.error == rest.error
      invariant old(ws.updates) + all.updates == ws.updates + rest.updates
    {
      var row := rows[i];
      if row.Failure? {
        assert rows[i..][0] == row;
        outcome := Raised(row.error);
        return;
      }
      ghost var written, update := ws.updates, RowUpdate(|ws.columnA| + 1, row.value);
      ghost var next := WriteNextRow(ws, row.value, rows, i);
      assert written + ([update] + next.updates) == ws.updates + next.updates;
      rest := next;
      i := i + 1;
    }
  }

  /**
   * The file part of `adicionar_recarga` (lines 191-197): raises when
   * recargas.txt does not exist, and otherwise copies its lines into `ws`.
   */
  method CopyFileRows(ws: Worksheet, file: LedgerFile) returns (outcome: SyncOutcome)
    requires ws.Valid()
    modifies ws
    ensures ws.Valid()
    ensures !file.present ==> outcome == Raised(FileMissing) && unchanged(ws)
    ensures file.present ==>
              var r := ReplayRows(old(ws.columnA), RowsOf(Lines(file.content)));
              && ws.columnA == r.columnA
              && ws.updates == old(ws.updates) + r.updates
              && outcome == (if r.error.Some? then Raised(r.error.value) else Copied)
  {
    if !file.present {
      return Raised(FileMissing);
    }
    outcome := CopyRows(ws, RowsOf(Lines(file.content)));
  }

  /**
   * `adicionar_recarga(metodo_pagamento)`: for PIX (compared after
   * `upper()`), fetches or creates the current tab and copies the file's
   * lines into it as rows below whatever column A already holds, up to the
   * first line that raises; the other tabs are left as they were. For
   * anything else it writes nothing.
   */
  method AdicionarRecarga(metodo: string, book: Spreadsheet, file: LedgerFile, today: string, yesterday: string)
    returns (ws: Worksheet?, outcome: SyncOutcome)
    requires book.Valid()
    modifies book, book.tabs
    ensures book.Valid()
    ensures Upper(metodo) != "PIX" ==>
              && ws == null && outcome == SkippedNotPix
              && book.tabs == old(book.tabs)
              && forall i :: 0 <= i < |book.tabs| ==> unchanged(book.tabs[i])
    ensures Upper(metodo) == "PIX" ==>
              var f := FirstCurrentTab(old(book.Titles()), today, yesterday);
              var start := if f.Some? then old(book.tabs[f.value].columnA) else [TitleCell, HeaderRow.name];
              var written := if f.Some? then old(book.tabs[f.value].updates) else [RowUpdate(2, HeaderRow)];
              && ws != null && ws in book.tabs && IsCurrentTitle(ws.title, today, yesterday)
              && (f.Some? ==> book.tabs == old(book.tabs) && ws == book.tabs[f.value])
              && (f.None? ==> book.tabs == old(book.tabs) + [ws] && ws.title == today)
              && (forall i :: 0 <= i < |old(book.tabs)| && old(book.tabs)[i] != ws ==> unchanged(old(book.tabs)[i]))
              && (!file.present ==> outcome == Raised(FileMissing) && ws.columnA == start && ws.updates == written)
              && (file.present ==>
                    var r := ReplayRows(start, RowsOf(Lines(file.content)));
                    && ws.columnA == r.columnA
                    && ws.updates == written + r.updates
                    && outcome == (if r.error.Some? then Raised(r.error.value) else Copied))
  {
    if Upper(metodo) != "PIX" {
      return null, SkippedNotPix;
    }
    var sheet := book.GetOrCreateSheet(today, yesterday);
    assert sheet in book.tabs;
    ws := sheet;
    outcome := CopyFileRows(sheet, file);
    assert book.tabs[|book.tabs| - 1] == sheet || sheet in old(book.tabs);
  }
}
