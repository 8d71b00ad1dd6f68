/** CSV ingestion: the quote-toggling line splitter `parseCSVLine`, the
    ordered row checks of `validateCSVRow`, and the conversion of a valid
    row into a transaction with its `DD-MM-YYYY` date rewritten as
    `YYYY-MM-DD`. */
module Csv {
  import opened Basics
  import opened Text
  import opened Ledger

  /** The splitter's variables: `result`, `current` and `inQuotes`. */
  datatype SplitState = SplitState(fields: seq<string>, current: string, inQuotes: bool)

  /** One character of the loop: a quote toggles quoting and is dropped, a
      comma outside quotes ends the field, anything else is kept. */
  function Step(st: SplitState, c: char): SplitState {
    if c == '"' then st.(inQuotes := !st.inQuotes)
    else if c == ',' && !st.inQuotes then SplitState(st.fields + [st.current], "", st.inQuotes)
    else st.(current := st.current + [c])
  }

  /** The state after the loop has read all of `s`. */
  function Scan(s: string): SplitState {
    if s == [] then SplitState([], "", false) else Step(Scan(s[..|s| - 1]), s[|s| - 1])
  }

  /** The fields `parseCSVLine` returns: those ended by commas, then the last one. */
  function SplitCsv(line: string): seq<string> {
    var st := Scan(line);
    st.fields + [st.current]
  }

  /** `parseCSVLine(line)`. */
  method ParseCsvLine(line: string) returns (result: seq<string>)
    ensures result == SplitCsv(line)
  {
    result := [];
    var current := "";
    var inQuotes := false;
    for i := 0 to |line|
      invariant Scan(line[..i]) == SplitState(result, current, inQuotes)
    {
      var c := line[i];
      assert line[..i + 1][..i] == line[..i];
      if c == '"' {
        inQuotes := !inQuotes;
      } else if c == ',' && !inQuotes {
        result := result + [current];
        current := "";
      } else {
        current := current + [c];
      }
    }
    assert line[..|line|] == line;
    result := result + [current];
  }

  /** Inside quotes exactly when an odd number of quotes has been read. */
  lemma {:induction false} ScanQuotes(s: string)
    ensures Scan(s).inQuotes <==> Count(s, '"') % 2 == 1
  {
    if s != [] {
      ScanQuotes(s[..|s| - 1]);
    }
  }

  /** The commas read while an even number of quotes lies before them. */
  function OutsideCommas(s: string): nat {
    if s == [] then 0
    else OutsideCommas(s[..|s| - 1]) + (if s[|s| - 1] == ',' && Count(s[..|s| - 1], '"') % 2 == 0 then 1 else 0)
  }

  /** A line splits into one more field than it has commas outside quotes. */
  lemma {:induction false} FieldCount(line: string)
    ensures |SplitCsv(line)| == OutsideCommas(line) + 1
  {
    ScanFieldCount(line);
  }

  lemma {:induction false} ScanFieldCount(s: string)
    ensures |Scan(s).fields| == OutsideCommas(s)
  {
    if s != [] {
      ScanFieldCount(s[..|s| - 1]);
      ScanQuotes(s[..|s| - 1]);
    }
  }

  /** Quote characters never reach a field. */
  lemma {:induction false} NoQuoteInFields(line: string)
    ensures forall i :: 0 <= i < |SplitCsv(line)| ==> '"' !in SplitCsv(line)[i]
  {
    ScanNoQuote(line);
  }

  lemma {:induction false} ScanNoQuote(s: string)
    ensures '"' !in Scan(s).current
    ensures forall i :: 0 <= i < |Scan(s).fields| ==> '"' !in Scan(s).fields[i]
  {
    if s != [] {
      ScanNoQuote(s[..|s| - 1]);
    }
  }

  /** A line without quote characters is split at every comma, exactly as
      `line.split(',')` would split it. */
  lemma QuoteFreeSplit(line: string)
    requires '"' !in line
    ensures SplitCsv(line) == Split(line, ',')
  {
    ScanQuoteFree(line);
  }

  lemma {:induction false} ScanQuoteFree(s: string)
    requires '"' !in s
    ensures !Scan(s).inQuotes
    ensures Scan(s).fields + [Scan(s).current] == Split(s, ',')
  {
    if s != [] {
      var init, c := s[..|s| - 1], s[|s| - 1];
      assert '"' !in init by {
        forall i | 0 <= i < |init| ensures init[i] != '"' {
          assert init[i] == s[i];
        }
      }
      ScanQuoteFree(init);
      var st := Scan(init);
      if c == ',' {
        assert Scan(s).fields + [Scan(s).current] == (st.fields + [st.current]) + [[]];
      } else {
        var w := st.fields + [st.current];
        assert w[..|w| - 1] == st.fields;
      }
    }
  }

  /** `/^\d{2}-\d{2}-\d{4}$/`: two digits, a dash, two digits, a dash, four digits. */
  predicate IsDmy(s: string) {
    |s| == 10 && s[2] == '-' && s[5] == '-'
    && AllDigits(s[..2]) && AllDigits(s[3..5]) && AllDigits(s[6..])
  }

  /** Why a row was rejected; the source reports each with the row number. */
  datatype Problem = WrongColumnCount(found: nat) | BadDate | BadType | BadAmount | EmptyCategory | EmptyDescription

  datatype RowError = RowError(row: nat, problem: Problem)

  /** The row type after `trim().toLowerCase()`, when it is one of the two accepted. */
  function ParseKind(s: string): (r: Option<Kind>)
    ensures r == Some(Income) <==> ToLower(Trim(s)) == "income"
    ensures r == Some(Expense) <==> ToLower(Trim(s)) == "expense"
    ensures r.Some? ==> !r.value.Other?
  {
    var t := ToLower(Trim(s));
    if t == "income" then Some(Income) else if t == "expense" then Some(Expense) else None
  }

  /** `parseFloat(amount.trim())` is given as `parseFloat`, `None` standing for `NaN`. */
  predicate AmountOk(amount: string, parseFloat: string -> Option<real>) {
    var a := parseFloat(Trim(amount));
    a.Some? && a.value > 0.0
  }

  /** `validateCSVRow`: the checks in order, the first that fails decides the error. */
  function ValidateCsvRow(date: string, kind: string, amount: string, category: string, description: string,
                          row: nat, parseFloat: string -> Option<real>): (r: Result<(), RowError>)
    ensures r.Err? ==> r.error.row == row
    ensures r == Err(RowError(row, BadDate)) <==> !IsDmy(Trim(date))
    ensures r == Err(RowError(row, BadType)) <==> IsDmy(Trim(date)) && ParseKind(kind).None?
    ensures r == Err(RowError(row, BadAmount)) <==>
              IsDmy(Trim(date)) && ParseKind(kind).Some? && !AmountOk(amount, parseFloat)
    ensures r == Err(RowError(row, EmptyCategory)) <==>
              IsDmy(Trim(date)) && ParseKind(kind).Some? && AmountOk(amount, parseFloat) && Trim(category) == []
    ensures r == Err(RowError(row, EmptyDescription)) <==>
              IsDmy(Trim(date)) && ParseKind(kind).Some? && AmountOk(amount, parseFloat) && Trim(category) != []
              && Trim(description) == []
    ensures r.Ok? <==>
              IsDmy(Trim(date)) && ParseKind(kind).Some? && AmountOk(amount, parseFloat) && Trim(category) != []
              && Trim(description) != []
  {
    if !IsDmy(Trim(date)) then Err(RowError(row, BadDate))
    else if ParseKind(kind).None? then Err(RowError(row, BadType))
    else if !AmountOk(amount, parseFloat) then Err(RowError(row, BadAmount))
    else if Trim(category) == [] then Err(RowError(row, EmptyCategory))
    else if Trim(description) == [] then Err(RowError(row, EmptyDescription))
    else Ok(())
  }

  /** `const [day, month, year] = date.split('-'); `${year}-${month}-${day}``. */
  function DmyToIso(d: string): (r: IsoDate)
    requires IsDmy(d)
    ensures r[..4] == d[6..] && r[5..7] == d[3..5] && r[8..] == d[..2]
  {
    DmySplit(d);
    var parts := Split(d, '-');
    var iso := parts[2] + "-" + parts[1] + "-" + parts[0];
    assert iso[..4] == d[6..] && iso[5..7] == d[3..5] && iso[8..] == d[..2];
    iso
  }

  /** A `DD-MM-YYYY` date splits at its two dashes into day, month and year. */
  lemma DmySplit(d: string)
    requires IsDmy(d)
    ensures Split(d, '-') == [d[..2], d[3..5], d[6..]]
  {
    var day, month, year := d[..2], d[3..5], d[6..];
    DigitsNoDash(day);
    DigitsNoDash(month);
    DigitsNoDash(year);
    var ws := [day, month, year];
    SplitJoin(ws, '-');
    assert ws[..2] == [day, month] && ws[..2][..1] == [day];
    assert Join(ws[..2], '-') == day + "-" + month;
    assert Join(ws, '-') == day + "-" + month + "-" + year;
    assert d == day + "-" + month + "-" + year;
  }

  lemma DigitsNoDash(s: string)
    requires AllDigits(s)
    ensures '-' !in s
  {
  }

  /** Reading the ISO date back in the other order gives the original text. */
  lemma DmyToIsoRoundTrip(d: string)
    requires IsDmy(d)
    ensures var r := DmyToIso(d); r[8..] + "-" + r[5..7] + "-" + r[..4] == d
  {
    var r := DmyToIso(d);
    assert r[8..] + "-" + r[5..7] + "-" + r[..4] == d[..2] + "-" + d[3..5] + "-" + d[6..];
  }

  /** The work done for one non-blank, trimmed line of a CSV file: split it,
      require five columns, validate them, and build the transaction with
      the type, category and description trimmed, the type and category
      lower-cased, and the date rewritten. */
  function ParseRow(line: string, row: nat, parseFloat: string -> Option<real>): (r: Result<Transaction, RowError>)
    ensures r.Err? ==> r.error.row == row
    ensures |SplitCsv(line)| != 5 ==> r == Err(RowError(row, WrongColumnCount(|SplitCsv(line)|)))
    ensures r.Ok? ==> |SplitCsv(line)| == 5
    ensures r.Ok? ==> ValidateCsvRow(SplitCsv(line)[0], SplitCsv(line)[1], SplitCsv(line)[2],
                                      SplitCsv(line)[3], SplitCsv(line)[4], row, parseFloat).Ok?
    ensures r.Ok? ==> (r.value.category == ToLower(Trim(SplitCsv(line)[3]))
                       && r.value.description == Trim(SplitCsv(line)[4])
                       && r.value.date == DmyToIso(Trim(SplitCsv(line)[0]))
                       && Some(r.value.amount) == parseFloat(Trim(SplitCsv(line)[2]))
                       && Some(r.value.kind) == ParseKind(SplitCsv(line)[1]))
    ensures r.Ok? ==> r.value.description != [] && r.value.category != []
  {
    var columns := SplitCsv(line);
    if |columns| != 5 then Err(RowError(row, WrongColumnCount(|columns|)))
    else
      var date, kind, amount, category, description := columns[0], columns[1], columns[2], columns[3], columns[4];
      match ValidateCsvRow(date, kind, amount, category, description, row, parseFloat)
      case Err(e) => Err(e)
      case Ok(_) =>
        Ok(Transaction(ParseKind(kind).value, parseFloat(Trim(amount)).value, ToLower(Trim(category)),
                       Trim(description), DmyToIso(Trim(date))))
  }

  /** The rows that survive `csvText.split('\n').filter(line => line.trim())`. */
  function NonBlank(text: string): seq<string> {
    KeepIf(Split(text, '\n'), (l: string) => Trim(l) != [])
  }

  /** The transactions and the row errors gathered from the non-blank lines. */
  datatype Parsed = Parsed(rows: seq<Transaction>, errors: seq<RowError>)

  /** What a row loop gathers from `lines` when line `i` (counting from 0)
      is handed to `parse` with row number `i + 1`. */
  function Gather(lines: seq<string>, parse: (string, nat) -> Result<Transaction, RowError>): (r: Parsed)
    ensures |r.rows| + |r.errors| == |lines|
  {
    if lines == [] then Parsed([], [])
    else
      var n := |lines|;
      var prev := Gather(lines[..n - 1], parse);
      match parse(lines[n - 1], n)
      case Ok(t) => Parsed(prev.rows + [t], prev.errors)
      case Err(e) => Parsed(prev.rows, prev.errors + [e])
  }

  /** Every gathered transaction and every gathered error is what `parse`
      made of some line. */
  lemma {:induction false} GatherFrom(lines: seq<string>, parse: (string, nat) -> Result<Transaction, RowError>)
    ensures forall t :: t in Gather(lines, parse).rows ==>
              exists i :: 0 <= i < |lines| && parse(lines[i], i + 1) == Ok(t)
    ensures forall e :: e in Gather(lines, parse).errors ==>
              exists i :: 0 <= i < |lines| && parse(lines[i], i + 1) == Err(e)
  {
    if lines != [] {
      var n := |lines|;
      GatherFrom(lines[..n - 1], parse);
      assert forall i :: 0 <= i < n - 1 ==> lines[..n - 1][i] == lines[i];
    }
  }

  /** Error rows between 1 and `n`, strictly increasing. */
  predicate RowsInOrder(es: seq<RowError>, n: nat) {
    && (forall k :: 0 <= k < |es| ==> 1 <= es[k].row <= n)
    && (forall k, m :: 0 <= k < m < |es| ==> es[k].row < es[m].row)
  }

  /** When `parse` stamps its errors with the row number it is given, the
      errors come out in row order, each naming a row of `lines`. */
  lemma {:induction false} GatherErrorRows(lines: seq<string>, parse: (string, nat) -> Result<Transaction, RowError>)
    requires forall l, k :: parse(l, k).Err? ==> parse(l, k).error.row == k
    ensures RowsInOrder(Gather(lines, parse).errors, |lines|)
  {
    if lines != [] {
      var n := |lines|;
      GatherErrorRows(lines[..n - 1], parse);
      var prev := Gather(lines[..n - 1], parse).errors;
      assert RowsInOrder(prev, n - 1);
      match parse(lines[n - 1], n)
      case Err(e) =>
        assert Gather(lines, parse).errors == prev + [e];
        assert e.row == n;
        var es := prev + [e];
        forall k, m | 0 <= k < m < |es| ensures es[k].row < es[m].row {
          if m < |prev| {
            assert es[k] == prev[k] && es[m] == prev[m];
          } else {
            assert es[k] == prev[k];
          }
        }
      case Ok(_) =>
        assert Gather(lines, parse).errors == prev;
    }
  }

  /** One more line: the gathered result grows by what `parse` makes of it. */
  lemma GatherSnoc(lines: seq<string>, parse: (string, nat) -> Result<Transaction, RowError>, i: nat)
    requires i < |lines|
    ensures var prev := Gather(lines[..i], parse);
      Gather(lines[..i + 1], parse) ==
        match parse(lines[i], i + 1)
        case Ok(t) => Parsed(prev.rows + [t], prev.errors)
        case Err(e) => Parsed(prev.rows, prev.errors + [e])
  {
    assert lines[..i + 1][..i] == lines[..i];
  }

  /** The row parser of the CSV loops: the line is trimmed first. */
  function RowParser(parseFloat: string -> Option<real>): (string, nat) -> Result<Transaction, RowError> {
    (line: string, row: nat) => ParseRow(Trim(line), row, parseFloat)
  }

  /** What the CSV row loop gathers from the non-blank lines `lines`. */
  function ParseLines(lines: seq<string>, parseFloat: string -> Option<real>): Parsed {
    Gather(lines, RowParser(parseFloat))
  }

  /** The row parser stamps each error with the row number it is given. */
  lemma RowParserStamps(parseFloat: string -> Option<real>)
    ensures forall l, k :: RowParser(parseFloat)(l, k).Err? ==> RowParser(parseFloat)(l, k).error.row == k
  {
    forall l, k ensures RowParser(parseFloat)(l, k).Err? ==> RowParser(parseFloat)(l, k).error.row == k {
      var r := ParseRow(Trim(l), k, parseFloat);
    }
  }

  /** The errors of a CSV text are reported in row order, each naming one
      of the non-blank lines. */
  lemma ParseLinesErrors(lines: seq<string>, parseFloat: string -> Option<real>)
    ensures RowsInOrder(ParseLines(lines, parseFloat).errors, |lines|)
  {
    RowParserStamps(parseFloat);
    GatherErrorRows(lines, RowParser(parseFloat));
  }

  /** The three ways reading a CSV text ends. */
  datatype Outcome = EmptyFile | NoValidRows(errors: seq<RowError>) | Preview(rows: seq<Transaction>, errors: seq<RowError>)

  /** The outcome the row loop reaches on `text`. */
  function CsvOutcome(text: string, parseFloat: string -> Option<real>): Outcome {
    var lines := NonBlank(text);
    if lines == [] then EmptyFile
    else
      var p := ParseLines(lines, parseFloat);
      if p.rows == [] then NoValidRows(p.errors) else Preview(p.rows, p.errors)
  }

  /** `parseAndPreviewCSV` and `parseAnalyticsCSV` up to the point where
      their results are shown: the row loop over the non-blank lines,
      each trimmed, split and validated, the valid ones converted to
      transactions and the rest reported. */
  method ParseCsvText(text: string, parseFloat: string -> Option<real>) returns (outcome: Outcome)
    ensures outcome == CsvOutcome(text, parseFloat)
    ensures outcome.Preview? ==> |outcome.rows| + |outcome.errors| == |NonBlank(text)|
    ensures outcome.NoValidRows? ==> |outcome.errors| == |NonBlank(text)| > 0
  {
    var lines := NonBlank(text);
    if |lines| == 0 {
      return EmptyFile;
    }
    var rows: seq<Transaction> := [];
    var errors: seq<RowError> := [];
    for i := 0 to |lines|
      invariant ParseLines(lines[..i], parseFloat) == Parsed(rows, errors)
    {
      GatherSnoc(lines, RowParser(parseFloat), i);
      var line := Trim(lines[i]);
      assert RowParser(parseFloat)(lines[i], i + 1) == ParseRow(line, i + 1, parseFloat);
      var columns := ParseCsvLine(line);
      if |columns| != 5 {
        errors := errors + [RowError(i + 1, WrongColumnCount(|columns|))];
      } else {
        match ParseRow(line, i + 1, parseFloat)
        case Ok(t) => rows := rows + [t];
        case Err(e) => errors := errors + [e];
      }
    }
    assert lines[..|lines|] == lines;
    if |rows| == 0 {
      return NoValidRows(errors);
    }
    return Preview(rows, errors);
  }
}
