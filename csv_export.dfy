/** The CSV text the change-log views export (`handleExport` in
    src/components/UpdateLogsModal.tsx and src/pages/UpdateLogs.tsx).
    A data field is written as section 2, item 7 of RFC 4180 has it: enclosed
    in double quotes, every inner double quote doubled. Records are joined
    with a line feed. A reader for such fields is given so that the export
    can be shown to lose nothing. */
module CsvExport {
  import opened Wrappers
  import opened Strings
  import opened Records

  const QUOTE: char := '"'
  const COMMA: char := ','
  const LF: char := '\n'

  const HEADER: seq<string> := ["序号", "所属电站", "保护屏", "设备间隔", "压板名称", "压板类型",
                                "变更类型", "变更来源", "变更时间", "保护压板状态"]

  /** `replace(/"/g, '""')`: every double quote doubled. */
  function Escape(s: string): (r: string)
    ensures |r| >= |s|
  {
    if s == [] then []
    else (if s[0] == QUOTE then [QUOTE, QUOTE] else [s[0]]) + Escape(s[1..])
  }

  /** `"${String(v).replace(/"/g, '""')}"`. */
  function QuoteField(v: string): string
  {
    [QUOTE] + Escape(v) + [QUOTE]
  }

  /** `fields.map(quote).join(',')`. */
  function QuoteRecord(fields: seq<string>): string
  {
    if |fields| == 0 then ""
    else if |fields| == 1 then QuoteField(fields[0])
    else QuoteField(fields[0]) + [COMMA] + QuoteRecord(fields[1..])
  }

  /** `lines.join('\n')`. */
  function JoinLines(lines: seq<string>): string
  {
    if |lines| == 0 then ""
    else if |lines| == 1 then lines[0]
    else lines[0] + [LF] + JoinLines(lines[1..])
  }

  function QuoteRecords(rows: seq<seq<string>>): (r: seq<string>)
    ensures |r| == |rows|
    ensures forall i :: 0 <= i < |rows| ==> r[i] == QuoteRecord(rows[i])
  {
    if rows == [] then [] else [QuoteRecord(rows[0])] + QuoteRecords(rows[1..])
  }

  /** The shown plate type of a log. */
  function TypeLabel(plateType: string): string
  {
    if plateType == SOFT then "软压板" else "硬压板"
  }

  /** The ten exported values of a log, `format` standing for the dayjs format of the view. */
  function LogRow(l: LogItem, format: int -> string): (r: seq<string>)
    ensures |r| == |HEADER|
  {
    [IntToString(l.sequence), l.powerStation, l.protectionScreen, l.deviceIssue, l.pressurePlateName,
     TypeLabel(l.plateType), l.changeType, l.changeSource, format(l.changeTime), l.pressurePlateStatus]
  }

  function LogRows(logs: seq<LogItem>, format: int -> string): (r: seq<seq<string>>)
    ensures |r| == |logs|
    ensures forall i :: 0 <= i < |logs| ==> r[i] == LogRow(logs[i], format)
  {
    if logs == [] then [] else [LogRow(logs[0], format)] + LogRows(logs[1..], format)
  }

  /** The page's export: the header and every row quoted alike. */
  function PageCsv(filtered: seq<LogItem>, format: int -> string): string
  {
    JoinLines(QuoteRecords([HEADER] + LogRows(filtered, format)))
  }

  /** The dialog's export: the header joined as it is, the rows quoted. */
  function ModalCsv(filtered: seq<LogItem>, format: int -> string): string
  {
    JoinLines([Join(HEADER, [COMMA])] + QuoteRecords(LogRows(filtered, format)))
  }

  // ---- reading the export back ----

  /** The inside of a quoted field, after its opening quote: up to the
      closing quote, a doubled quote standing for one. Gives the value and
      what follows the closing quote. */
  function ParseQuotedBody(s: string): (r: Option<(string, string)>)
    decreases |s|
    ensures r.Some? ==> |r.value.1| < |s|
  {
    if s == [] then None
    else if s[0] == QUOTE then
      if |s| >= 2 && s[1] == QUOTE then
        match ParseQuotedBody(s[2..])
        case None => None
        case Some(p) => Some(([QUOTE] + p.0, p.1))
      else Some(([], s[1..]))
    else
      match ParseQuotedBody(s[1..])
      case None => None
      case Some(p) => Some(([s[0]] + p.0, p.1))
  }

  function ParseField(s: string): (r: Option<(string, string)>)
    ensures r.Some? ==> |r.value.1| < |s|
  {
    if s != [] && s[0] == QUOTE then ParseQuotedBody(s[1..]) else None
  }

  /** Quoted fields separated by commas, up to the end of the text or of the line. */
  function ParseRecord(s: string): (r: Option<(seq<string>, string)>)
    decreases |s|
    ensures r.Some? ==> |r.value.1| < |s|
  {
    match ParseField(s)
    case None => None
    case Some(p) =>
      if p.1 != [] && p.1[0] == COMMA then
        match ParseRecord(p.1[1..])
        case None => None
        case Some(q) => Some(([p.0] + q.0, q.1))
      else Some(([p.0], p.1))
  }

  /** Records separated by line feeds, up to the end of the text. */
  function ParseDocument(s: string): Option<seq<seq<string>>>
    decreases |s|
  {
    match ParseRecord(s)
    case None => None
    case Some(p) =>
      if p.1 == [] then Some([p.0])
      else if p.1[0] == LF then
        match ParseDocument(p.1[1..])
        case None => None
        case Some(rest) => Some([p.0] + rest)
      else None
  }

  /** What may follow a closing quote: nothing, a comma or a line feed, never a quote. */
  predicate AfterField(rest: string)
  {
    rest == [] || rest[0] != QUOTE
  }

  /** Reading the inside of an escaped value gives the value back. */
  lemma {:induction false} ParseEscaped(v: string, rest: string)
    requires AfterField(rest)
    ensures ParseQuotedBody(Escape(v) + [QUOTE] + rest) == Some((v, rest))
  {
    if v == [] {
      assert Escape(v) + [QUOTE] + rest == [QUOTE] + rest;
    } else {
      var head := if v[0] == QUOTE then [QUOTE, QUOTE] else [v[0]];
      var t := Escape(v[1..]) + [QUOTE] + rest;
      assert Escape(v) == head + Escape(v[1..]);
      assert Escape(v) + [QUOTE] + rest == head + t;
      ParseEscaped(v[1..], rest);
      if v[0] == QUOTE {
        DoubledQuote(t, v[1..], rest);
      } else {
        PlainChar(v[0], t, v[1..], rest);
      }
      assert [v[0]] + v[1..] == v;
    }
  }

  lemma DoubledQuote(t: string, v: string, rest: string)
    requires ParseQuotedBody(t) == Some((v, rest))
    ensures ParseQuotedBody([QUOTE, QUOTE] + t) == Some(([QUOTE] + v, rest))
  {
    assert ([QUOTE, QUOTE] + t)[2..] == t;
  }

  lemma PlainChar(c: char, t: string, v: string, rest: string)
    requires c != QUOTE && ParseQuotedBody(t) == Some((v, rest))
    ensures ParseQuotedBody([c] + t) == Some(([c] + v, rest))
  {
    assert ([c] + t)[1..] == t;
  }

  /** Every field reads back as the value it was written from. */
  lemma FieldRoundTrip(v: string, rest: string)
    requires AfterField(rest)
    ensures ParseField(QuoteField(v) + rest) == Some((v, rest))
  {
    ParseEscaped(v, rest);
    assert QuoteField(v) + rest == [QUOTE] + (Escape(v) + [QUOTE] + rest);
  }

  /** A record ends at the end of the text or at a line feed. */
  predicate AfterRecord(rest: string)
  {
    rest == [] || rest[0] == LF
  }

  /** Every record of at least one field reads back as its fields. */
  lemma {:induction false} RecordRoundTrip(fields: seq<string>, rest: string)
    requires |fields| >= 1 && AfterRecord(rest)
    ensures ParseRecord(QuoteRecord(fields) + rest) == Some((fields, rest))
    decreases |fields|
  {
    if |fields| == 1 {
      FieldRoundTrip(fields[0], rest);
      LastField(QuoteField(fields[0]) + rest, fields[0], rest);
      assert fields == [fields[0]];
    } else {
      var tail := [COMMA] + (QuoteRecord(fields[1..]) + rest);
      QuoteRecordCons(fields, rest);
      FieldRoundTrip(fields[0], tail);
      RecordRoundTrip(fields[1..], rest);
      NextField(QuoteField(fields[0]) + tail, fields[0], QuoteRecord(fields[1..]) + rest, fields[1..], rest);
      assert [fields[0]] + fields[1..] == fields;
    }
  }

  lemma QuoteRecordCons(fields: seq<string>, rest: string)
    requires |fields| >= 2
    ensures QuoteRecord(fields) + rest == QuoteField(fields[0]) + ([COMMA] + (QuoteRecord(fields[1..]) + rest))
  {
    var a, b := QuoteField(fields[0]), QuoteRecord(fields[1..]);
    assert QuoteRecord(fields) == a + [COMMA] + b;
    Regroup(a, [COMMA], b, rest);
  }

  lemma Regroup(a: string, b: string, c: string, d: string)
    ensures a + b + c + d == a + (b + (c + d))
  {
  }

  lemma LastField(s: string, v: string, rest: string)
    requires AfterRecord(rest) && ParseField(s) == Some((v, rest))
    ensures ParseRecord(s) == Some(([v], rest))
  {
  }

  lemma NextField(s: string, v: string, t: string, more: seq<string>, rest: string)
    requires ParseField(s) == Some((v, [COMMA] + t))
    requires ParseRecord(t) == Some((more, rest))
    ensures ParseRecord(s) == Some(([v] + more, rest))
  {
    assert ([COMMA] + t)[1..] == t;
  }

  /** Every document of non-empty records reads back as its records. */
  lemma {:induction false} DocumentRoundTrip(rows: seq<seq<string>>)
    requires |rows| >= 1 && forall i :: 0 <= i < |rows| ==> |rows[i]| >= 1
    ensures ParseDocument(JoinLines(QuoteRecords(rows))) == Some(rows)
    decreases |rows|
  {
    if |rows| == 1 {
      LastRecord(rows[0]);
      assert rows == [rows[0]];
    } else {
      var rest := JoinLines(QuoteRecords(rows[1..]));
      QuoteRecordsCons(rows);
      JoinLinesCons(QuoteRecords(rows));
      RecordRoundTrip(rows[0], [LF] + rest);
      DocumentRoundTrip(rows[1..]);
      DocumentStep(QuoteRecord(rows[0]) + ([LF] + rest), rows[0], rest, rows[1..]);
      assert [rows[0]] + rows[1..] == rows;
    }
  }

  lemma LastRecord(fields: seq<string>)
    requires |fields| >= 1
    ensures ParseDocument(JoinLines(QuoteRecords([fields]))) == Some([fields])
  {
    assert QuoteRecords([fields]) == [QuoteRecord(fields)];
    RecordRoundTrip(fields, []);
    assert QuoteRecord(fields) + [] == QuoteRecord(fields);
  }

  lemma QuoteRecordsCons(rows: seq<seq<string>>)
    requires |rows| >= 1
    ensures QuoteRecords(rows) == [QuoteRecord(rows[0])] + QuoteRecords(rows[1..])
  {
  }

  lemma JoinLinesCons(lines: seq<string>)
    requires |lines| >= 2
    ensures JoinLines(lines) == lines[0] + ([LF] + JoinLines(lines[1..]))
  {
  }

  /** A record followed by a line feed and a readable document. */
  lemma DocumentStep(s: string, first: seq<string>, rest: string, more: seq<seq<string>>)
    requires ParseRecord(s) == Some((first, [LF] + rest))
    requires ParseDocument(rest) == Some(more)
    ensures ParseDocument(s) == Some([first] + more)
  {
    assert ([LF] + rest)[1..] == rest;
  }

  /** The page's export reads back as the header followed by one record per
      filtered log, each holding exactly its ten values. */
  lemma PageCsvRoundTrip(filtered: seq<LogItem>, format: int -> string)
    ensures ParseDocument(PageCsv(filtered, format)) == Some([HEADER] + LogRows(filtered, format))
  {
    DocumentRoundTrip([HEADER] + LogRows(filtered, format));
  }

  /** The dialog's export is the plain header line, then, when there are
      logs, a line feed and the quoted records, which read back as the rows. */
  lemma ModalCsvRoundTrip(filtered: seq<LogItem>, format: int -> string)
    ensures filtered == [] ==> ModalCsv(filtered, format) == Join(HEADER, [COMMA])
    ensures filtered != [] ==>
      var body := JoinLines(QuoteRecords(LogRows(filtered, format)));
      && ModalCsv(filtered, format) == Join(HEADER, [COMMA]) + [LF] + body
      && ParseDocument(body) == Some(LogRows(filtered, format))
  {
    var lines := [Join(HEADER, [COMMA])] + QuoteRecords(LogRows(filtered, format));
    if filtered != [] {
      assert lines[1..] == QuoteRecords(LogRows(filtered, format));
      DocumentRoundTrip(LogRows(filtered, format));
    }
  }
}
