/** What `POST /import` inserts: the request checks, the per-line skip rules and the
    duplicate check against the stored expenses. */
module ImportRules {
  import opened Wrappers
  import opened Text
  import opened Records
  import opened Codec
  import opened LineParse

  /** The currencies an imported line may carry, compared exactly. */
  predicate IsCurrency(c: string) {
    c == "CRC" || c == "USD"
  }

  /** The fields the duplicate query compares. */
  function ChargeOf(e: Expense): ParsedLine {
    ParsedLine(e.date, e.description, e.amount, e.currency)
  }

  /** A stored expense with the same date, description, amount and currency exists, in any
      period and under any category. */
  predicate IsDuplicate(stored: seq<Expense>, p: ParsedLine) {
    exists i :: 0 <= i < |stored| && ChargeOf(stored[i]) == p
  }

  /** The document inserted for an accepted line. */
  function NewExpense(p: ParsedLine, pid: string): (e: Expense)
    ensures ChargeOf(e) == p
  {
    Expense(p.date, p.description, p.amount, p.currency, Some("Default"), Some(pid))
  }

  /** The document one line contributes, if any; `stored` is the collection as the import
      found it, since the batch is inserted only after the last line. */
  function LineRecord(stored: seq<Expense>, line: string, pid: string): Option<Expense> {
    match ParseLine(line)
    case None => None
    case Some(p) => if IsCurrency(p.currency) && !IsDuplicate(stored, p) then Some(NewExpense(p, pid)) else None
  }

  /** The documents one import inserts, in line order. */
  function ImportBatch(stored: seq<Expense>, lines: seq<string>, pid: string): (r: seq<Expense>)
    ensures |r| <= |lines|
    ensures forall k :: 0 <= k < |r| ==>
      r[k].category == Some("Default") && r[k].period == Some(pid)
      && IsCurrency(r[k].currency) && !IsDuplicate(stored, ChargeOf(r[k]))
    ensures forall k :: 0 <= k < |r| ==>
      exists j :: 0 <= j < |lines| && LineRecord(stored, lines[j], pid) == Some(r[k])
    decreases |lines|
  {
    if lines == [] then []
    else
      var init := lines[..|lines| - 1];
      var prefix := ImportBatch(stored, init, pid);
      assert forall j :: 0 <= j < |init| ==> init[j] == lines[j];
      match LineRecord(stored, lines[|lines| - 1], pid)
      case None => prefix
      case Some(e) => prefix + [e]
  }

  /** Importing two pieces of a statement one after the other against the same store inserts
      what importing them together does. */
  lemma {:induction false} ImportBatchConcat(stored: seq<Expense>, a: seq<string>, b: seq<string>, pid: string)
    ensures ImportBatch(stored, a + b, pid) == ImportBatch(stored, a, pid) + ImportBatch(stored, b, pid)
    decreases |b|
  {
    if b == [] {
      assert a + b == a;
    } else {
      var b' := b[..|b| - 1];
      var tail := match LineRecord(stored, b[|b| - 1], pid) case None => [] case Some(e) => [e];
      ImportBatchConcat(stored, a, b', pid);
      assert (a + b)[..|a + b| - 1] == a + b';
      assert (a + b)[|a + b| - 1] == b[|b| - 1];
      assert ImportBatch(stored, a + b, pid) == ImportBatch(stored, a + b', pid) + tail;
      assert ImportBatch(stored, b, pid) == ImportBatch(stored, b', pid) + tail;
    }
  }

  /** Every line that parses, names CRC or USD and matches no stored expense is inserted, at
      the position of its line among the accepted ones. */
  lemma AcceptedLineImported(stored: seq<Expense>, lines: seq<string>, pid: string, j: int)
    requires 0 <= j < |lines|
    requires LineRecord(stored, lines[j], pid).Some?
    ensures LineRecord(stored, lines[j], pid).value in ImportBatch(stored, lines, pid)
    ensures ImportBatch(stored, lines, pid)
         == ImportBatch(stored, lines[..j], pid) + [LineRecord(stored, lines[j], pid).value]
            + ImportBatch(stored, lines[j + 1..], pid)
  {
    assert lines == lines[..j] + [lines[j]] + lines[j + 1..];
    ImportBatchConcat(stored, lines[..j] + [lines[j]], lines[j + 1..], pid);
    ImportBatchConcat(stored, lines[..j], [lines[j]], pid);
    assert [lines[j]][..0] == [];
  }

  /** A line that fails to parse, names another currency or repeats a stored expense adds
      nothing, and the other lines are imported as if it were absent. */
  lemma SkippedLineIgnored(stored: seq<Expense>, a: seq<string>, line: string, b: seq<string>, pid: string)
    requires ParseLine(line).None? || !IsCurrency(ParseLine(line).value.currency)
          || IsDuplicate(stored, ParseLine(line).value)
    ensures ImportBatch(stored, a + [line] + b, pid) == ImportBatch(stored, a + b, pid)
  {
    ImportBatchConcat(stored, a + [line], b, pid);
    ImportBatchConcat(stored, a, [line], pid);
    ImportBatchConcat(stored, a, b, pid);
    assert [line][..0] == [];
  }

  /** The same line twice in one statement is inserted twice: the duplicate check sees only
      the expenses stored before the import. */
  lemma RepeatedLineImportedTwice(stored: seq<Expense>, line: string, pid: string)
    requires LineRecord(stored, line, pid).Some?
    ensures var e := LineRecord(stored, line, pid).value;
      ImportBatch(stored, [line, line], pid) == [e, e]
  {
    ImportBatchConcat(stored, [line], [line], pid);
    assert [line] + [line] == [line, line];
    assert [line][..0] == [];
  }

  lemma {:induction false} NothingAccepted(stored: seq<Expense>, lines: seq<string>, pid: string)
    requires forall j :: 0 <= j < |lines| ==> LineRecord(stored, lines[j], pid).None?
    ensures ImportBatch(stored, lines, pid) == []
    decreases |lines|
  {
    if lines != [] {
      var init := lines[..|lines| - 1];
      assert forall j :: 0 <= j < |init| ==> init[j] == lines[j];
      NothingAccepted(stored, init, pid);
    }
  }

  lemma DuplicateOfExtended(stored: seq<Expense>, extra: seq<Expense>, p: ParsedLine)
    requires IsDuplicate(stored, p) || exists k :: 0 <= k < |extra| && ChargeOf(extra[k]) == p
    ensures IsDuplicate(stored + extra, p)
  {
    if IsDuplicate(stored, p) {
      var i :| 0 <= i < |stored| && ChargeOf(stored[i]) == p;
      assert (stored + extra)[i] == stored[i];
    } else {
      var k :| 0 <= k < |extra| && ChargeOf(extra[k]) == p;
      assert (stored + extra)[|stored| + k] == extra[k];
    }
  }

  /** A line is skipped against a store that holds what it contributed before. */
  lemma SkippedOnceInserted(stored: seq<Expense>, extra: seq<Expense>, line: string, pid: string, pid2: string)
    requires LineRecord(stored, line, pid).Some? ==> LineRecord(stored, line, pid).value in extra
    ensures LineRecord(stored + extra, line, pid2).None?
  {
    var r := ParseLine(line);
    if r.Some? && IsCurrency(r.value.currency) {
      if !IsDuplicate(stored, r.value) {
        var e := NewExpense(r.value, pid);
        assert e in extra;
        var k :| 0 <= k < |extra| && extra[k] == e;
      }
      DuplicateOfExtended(stored, extra, r.value);
    }
  }

  /** Importing the same statement again, into any period, inserts nothing: every line the
      first import accepted is now a duplicate of what it inserted. */
  lemma ReimportInsertsNothing(stored: seq<Expense>, lines: seq<string>, pid: string, pid2: string)
    ensures ImportBatch(stored + ImportBatch(stored, lines, pid), lines, pid2) == []
  {
    var batch := ImportBatch(stored, lines, pid);
    forall j | 0 <= j < |lines| ensures LineRecord(stored + batch, lines[j], pid2).None? {
      if LineRecord(stored, lines[j], pid).Some? {
        AcceptedLineImported(stored, lines, pid, j);
      }
      SkippedOnceInserted(stored, batch, lines[j], pid, pid2);
    }
    NothingAccepted(stored + batch, lines, pid2);
  }

  /** The outcome of `POST /import` for a body whose `period_identifier` and `raw_text` are
      given or absent: the documents to insert, or the error the route raises. */
  function ImportRequest(stored: seq<Expense>, periodId: Option<string>, rawText: Option<string>)
    : Result<seq<Expense>, HttpError>
  {
    if periodId.None? || periodId.value == "" || rawText.None? || rawText.value == "" then
      Failure(BadRequest)
    else match DecodeImportText(rawText.value)
      case None => Failure(BadRequest)
      case Some(text) => Success(ImportBatch(stored, Lines(text), periodId.value))
  }

  /** The request is refused with 400 exactly when a field is missing or empty or the text
      is not base64 of UTF-8; no line of the statement can make it fail. */
  lemma ImportRequestErrors(stored: seq<Expense>, periodId: Option<string>, rawText: Option<string>)
    ensures ImportRequest(stored, periodId, rawText).Failure?
        <==> periodId.None? || periodId.value == "" || rawText.None? || rawText.value == ""
             || DecodeImportText(rawText.value).None?
    ensures ImportRequest(stored, periodId, rawText).Failure? ==>
      ImportRequest(stored, periodId, rawText).error == BadRequest
  {
  }

  /** A statement the client encodes is always decoded and imported line by line: for a
      non-empty text and period the request never fails. */
  lemma ClientPayloadAccepted(stored: seq<Expense>, period: string, text: string)
    requires period != "" && text != ""
    ensures ImportRequest(stored, Some(period), Some(EncodeImportText(text)))
         == Success(ImportBatch(stored, Lines(text), period))
  {
    ImportTextRoundTrip(text);
  }

  /** A well-formed statement line in CRC or USD that matches no stored expense is inserted as
      one document with its date, its words joined by single spaces, its amount, the category
      "Default" and the requested period. */
  lemma FormattedLineImported(stored: seq<Expense>, d: Date, words: seq<string>, cents: nat,
                              currency: string, pid: string)
    requires ValidDate(d) && IsCurrency(currency)
    requires forall i :: 0 <= i < |words| ==> IsToken(words[i])
    requires !IsDuplicate(stored, ParsedLine(d, Join(" ", words), CentsValue(cents), currency))
    ensures ImportBatch(stored, [FormatLine(d, words, cents, currency)], pid)
         == [Expense(d, Join(" ", words), CentsValue(cents), currency, Some("Default"), Some(pid))]
  {
    assert IsToken(currency);
    ParseLineOfFormat(d, words, cents, currency);
    var line := FormatLine(d, words, cents, currency);
    assert [line][..0] == [];
  }
}
