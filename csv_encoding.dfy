/**
 * The line encoder and the batch step of the CSV engine
 * (`getCsvLine`, app/csv.js:79-85, and app/csv.js:108-114).
 */
module CsvEncoding {
  import opened JsString
  import opened CsvRegistry

  /**
   * A record value as `obj[column] || ''` sees it: falsy (absent, `undefined`,
   * `null`, `false`, `0`, `NaN`, `''`) or truthy together with its text form.
   */
  datatype Value = Falsy | Truthy(text: string)

  /**
   * A submitted object, as own properties only: a key it lacks reads as
   * `undefined`, which is falsy. Members inherited from `Object.prototype`
   * are not part of the model.
   */
  type Record = map<string, Value>

  /** The text `${obj[column] || ''}` for one column. */
  function FieldText(obj: Record, column: string): string
  {
    if column in obj && obj[column].Truthy? then obj[column].text else ""
  }

  /** The record's field texts, one per column, in column order. */
  function Fields(columns: seq<string>, obj: Record): (r: seq<string>)
    ensures |r| == |columns|
    ensures forall i :: 0 <= i < |r| ==> r[i] == FieldText(obj, columns[i])
  {
    if |columns| == 0 then [] else [FieldText(obj, columns[0])] + Fields(columns[1..], obj)
  }

  /** The line `getCsvLine(columns, obj)` returns: the field texts separated by `separator`. */
  function CsvLine(columns: seq<string>, obj: Record, separator: string): string
  {
    Join(Fields(columns, obj), separator)
  }

  /** `getCsvLine`: appends each field, and a separator after every field but the last. */
  method GetCsvLine(columns: seq<string>, obj: Record, separator: string) returns (line: string)
    ensures line == CsvLine(columns, obj, separator)
  {
    ghost var fields := Fields(columns, obj);
    line := "";
    for i := 0 to |columns|
      invariant line == if 0 < i < |columns| then Join(fields[..i], separator) + separator
                        else Join(fields[..i], separator)
    {
      assert fields[..i + 1] == fields[..i] + [fields[i]];
      if i > 0 {
        JoinSnoc(fields[..i], fields[i], separator);
      }
      line := line + FieldText(obj, columns[i]) + (if i < |columns| - 1 then separator else "");
    }
    assert fields[..|columns|] == fields;
  }

  /**
   * Round trip: when no field text holds the one-character separator,
   * splitting the line on it gives back the field texts in column order.
   */
  lemma CsvLineRoundTrip(columns: seq<string>, obj: Record, c: char)
    requires |columns| > 0
    requires forall i :: 0 <= i < |columns| ==> c !in FieldText(obj, columns[i])
    ensures Split(CsvLine(columns, obj, [c]), c) == Fields(columns, obj)
    ensures forall i :: 0 <= i < |columns| ==>
              Split(CsvLine(columns, obj, [c]), c)[i] == FieldText(obj, columns[i])
  {
    SplitJoin(Fields(columns, obj), c);
  }

  /**
   * With a non-empty separator, a line is empty exactly when the table has
   * no column, or one column whose field is empty.
   */
  lemma CsvLineEmptyIff(columns: seq<string>, obj: Record, separator: string)
    requires separator != ""
    ensures CsvLine(columns, obj, separator) == "" <==>
              |columns| == 0 || (|columns| == 1 && FieldText(obj, columns[0]) == "")
  {
    if |columns| > 0 {
      JoinLength(Fields(columns, obj), separator);
      if |columns| == 1 {
        assert CsvLine(columns, obj, separator) == FieldText(obj, columns[0]);
      }
    }
  }

  /** A record with no usable value for any column encodes to bare separators. */
  lemma CsvLineAllEmpty(columns: seq<string>, obj: Record, separator: string)
    requires |columns| > 0
    requires forall i :: 0 <= i < |columns| ==> FieldText(obj, columns[i]) == ""
    ensures CsvLine(columns, obj, separator) == Repeat(separator, |columns| - 1)
  {
    JoinEmpties(Fields(columns, obj), separator);
  }

  /** Keys that are not columns play no part: only the record's column entries matter. */
  lemma CsvLineIgnoresOtherKeys(columns: seq<string>, obj: Record, separator: string)
    ensures CsvLine(columns, obj, separator)
         == CsvLine(columns, map k | k in obj && k in columns :: obj[k], separator)
  {
    var kept := map k | k in obj && k in columns :: obj[k];
    assert Fields(columns, obj) == Fields(columns, kept) by {
      forall i | 0 <= i < |columns| ensures FieldText(obj, columns[i]) == FieldText(kept, columns[i]) {
        assert columns[i] in columns;
      }
    }
  }

  /** `[a, b]` with `{a: '1'}` gives `"1,"`; a falsy value such as `0` gives an empty field. */
  lemma CsvLineExamples()
    ensures CsvLine(["a", "b"], map["a" := Truthy("1"), "b" := Truthy("2")], ",") == "1,2"
    ensures CsvLine(["a", "b"], map["a" := Truthy("1")], ",") == "1,"
    ensures CsvLine(["a", "b"], map["a" := Falsy, "b" := Truthy("2")], ",") == ",2"
  {
    assert Fields(["a", "b"], map["a" := Truthy("1")]) == ["1", ""];
  }

  /** `entries.map(e => getCsvLine(columns, e))`. */
  function EncodeAll(columns: seq<string>, entries: seq<Record>, separator: string): (r: seq<string>)
    ensures |r| == |entries|
    ensures forall i :: 0 <= i < |r| ==> r[i] == CsvLine(columns, entries[i], separator)
  {
    if |entries| == 0 then []
    else [CsvLine(columns, entries[0], separator)] + EncodeAll(columns, entries[1..], separator)
  }

  /** `a` is `b` with some elements left out and the rest in their order. */
  predicate IsSubsequence(a: seq<string>, b: seq<string>)
    decreases |b|
  {
    if |a| == 0 then true
    else if |b| == 0 then false
    else if a[0] == b[0] then IsSubsequence(a[1..], b[1..])
    else IsSubsequence(a, b[1..])
  }

  /** Number of empty lines. */
  function Empties(lines: seq<string>): nat
  {
    if |lines| == 0 then 0 else (if lines[0] == "" then 1 else 0) + Empties(lines[1..])
  }

  /**
   * `lines.filter(e => e.length > 0)`: every non-empty line, and only those,
   * in their original relative order.
   */
  function KeepNonEmpty(lines: seq<string>): (r: seq<string>)
    ensures forall i :: 0 <= i < |r| ==> r[i] != ""
    ensures forall x :: x in r <==> x in lines && x != ""
    ensures IsSubsequence(r, lines)
    ensures |r| + Empties(lines) == |lines|
  {
    if |lines| == 0 then []
    else
      var rest := KeepNonEmpty(lines[1..]);
      if lines[0] == "" then
        assert |rest| > 0 ==> rest[0] != lines[0];
        rest
      else
        [lines[0]] + rest
  }

  /** The lines of one batch: encoded, then, when configured, the empty ones dropped. */
  function BatchLines(cfg: Config, table: Table, entries: seq<Record>): seq<string>
  {
    var lines := EncodeAll(table.columns, entries, cfg.separator);
    if cfg.ignoreEmpty then KeepNonEmpty(lines) else lines
  }

  /** The string a batch resolves with: its lines joined by `NEW_LINE`. */
  function Payload(cfg: Config, table: Table, entries: seq<Record>): string
  {
    Join(BatchLines(cfg, table, entries), cfg.newLine)
  }

  /**
   * Which lines a batch keeps: all of them when filtering is off; otherwise
   * the non-empty ones in order, i.e. the entries whose line is empty exactly
   * because the table has one column and the entry no usable value for it.
   */
  lemma BatchLinesKept(cfg: Config, table: Table, entries: seq<Record>)
    requires cfg.separator != ""
    ensures var encoded := EncodeAll(table.columns, entries, cfg.separator);
            && (!cfg.ignoreEmpty ==> BatchLines(cfg, table, entries) == encoded)
            && (cfg.ignoreEmpty ==>
                  && IsSubsequence(BatchLines(cfg, table, entries), encoded)
                  && forall i :: 0 <= i < |entries| ==>
                       (encoded[i] in BatchLines(cfg, table, entries) <==>
                        !(|table.columns| == 0 ||
                          (|table.columns| == 1 && FieldText(entries[i], table.columns[0]) == ""))))
  {
    forall i | 0 <= i < |entries| {
      CsvLineEmptyIff(table.columns, entries[i], cfg.separator);
    }
  }

  /** With two or more columns no line is empty, so every entry is written. */
  lemma {:induction false} WideBatchKeepsAll(cfg: Config, table: Table, entries: seq<Record>)
    requires cfg.separator != "" && |table.columns| >= 2
    ensures BatchLines(cfg, table, entries) == EncodeAll(table.columns, entries, cfg.separator)
    ensures |BatchLines(cfg, table, entries)| == |entries|
  {
    var lines := EncodeAll(table.columns, entries, cfg.separator);
    forall i | 0 <= i < |lines| ensures lines[i] != "" {
      CsvLineEmptyIff(table.columns, entries[i], cfg.separator);
    }
    NonEmptyKept(lines);
  }

  /** Filtering a sequence with no empty line keeps it as it is. */
  lemma {:induction false} NonEmptyKept(lines: seq<string>)
    requires forall i :: 0 <= i < |lines| ==> lines[i] != ""
    ensures KeepNonEmpty(lines) == lines
  {
    if |lines| > 0 {
      NonEmptyKept(lines[1..]);
    }
  }
}
