/**
 * How the three parts fit together: the form decides what the user may
 * submit, the worker appends a PIX recharge to `recargas.txt`, and the
 * sheet synchronisation reads that file back.
 */
module EndToEnd {
  import opened Wrappers
  import opened PyText
  import opened Ledger
  import opened FormView

  /**
   * The form accepts an amount typed with a decimal comma, `"10,50"`, and
   * the worker writes it into the ledger as it is; the line then splits
   * into four parts, so every later synchronisation of the ledger raises:
   * it writes the rows of the lines before that one and no more, and when
   * those lines all parse the error is the four-part unpacking at that line.
   */
  lemma CommaAmountPassesFormButBreaksLedger(content: string, columnA: seq<string>)
    requires content == [] || content[|content| - 1] == '\n'
    ensures FieldsVisibility("PIX", "Ana", "1234", "10,50").submit
    ensures DecodeLine(EncodeRecord("Ana", "10,50", "1234")) == Failure(UnpackError(4))
    ensures var before := ReplayRows(columnA, RowsOf(Lines(content)));
            var after := ReplayRows(columnA, RowsOf(Lines(content + EncodeRecord("Ana", "10,50", "1234"))));
            && after.error.Some?
            && after.updates == before.updates
            && (before.error.None? ==> after.error == Some(UnpackError(4)))
  {
    CommaDecimalValueUnlocksSubmit();
    CommaAmountLineSplitsInFour("10,50");
    CommaAmountStopsSync(content, columnA, "10,50");
  }

  /** Replaying a ledger that ends with the line of `("Ana", "10,50", "1234")`. */
  lemma CommaAmountStopsSync(content: string, columnA: seq<string>, valor: string)
    requires content == [] || content[|content| - 1] == '\n'
    requires valor == "10,50"
    ensures var before := ReplayRows(columnA, RowsOf(Lines(content)));
            var after := ReplayRows(columnA, RowsOf(Lines(content + EncodeRecord("Ana", valor, "1234"))));
            && after.error.Some?
            && after.updates == before.updates
            && (before.error.None? ==> after.error == Some(UnpackError(4)))
  {
    OneCommaInAmount(valor);
    CommaRecordStopsReplay(columnA, content, "Ana", valor, "1234");
  }

  /** The ledger line of `("Ana", "10,50", "1234")` splits into four parts. */
  lemma CommaAmountLineSplitsInFour(valor: string)
    requires valor == "10,50"
    ensures DecodeLine(EncodeRecord("Ana", valor, "1234")) == Failure(UnpackError(4))
  {
    OneCommaInAmount(valor);
    CommaInFieldBreaksDecode("Ana", valor, "1234");
  }

  /** `"10,50"` is the only field of the record holding a comma, and it holds one. */
  lemma OneCommaInAmount(valor: string)
    requires valor == "10,50"
    ensures FieldCommas("Ana", valor, "1234") == 1
  {
    CountZero("Ana", ',');
    CountZero("1234", ',');
    assert valor == "10" + ("," + "50");
    CountAppend("10", "," + "50", ',');
    CountAppend(",", "50", ',');
    CountZero("10", ',');
    CountZero("50", ',');
  }
}
