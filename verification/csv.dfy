/**
 The CSV text `csv.DictWriter` produces with Python's default dialect
 (comma delimiter, `"` quote character, doubled quotes, `\r\n` line ends,
 minimal quoting), and the record syntax of section 2 of RFC 4180 read back
 from it.
 */
module Csv {
  import opened Outcomes

  type Field = string
  type Row = seq<Field>

  /** The line terminator of the default dialect. */
  const CrLf: string := "\r\n"

  /** A character that forces a field into quotes under minimal quoting. */
  predicate Special(c: char) {
    c == ',' || c == '"' || c == '\r' || c == '\n'
  }

  /** Minimal quoting: a field is quoted exactly when it holds a delimiter, a quote or a line break. */
  predicate NeedsQuotes(f: Field) {
    exists i :: 0 <= i < |f| && Special(f[i])
  }

  /** Every quote character of the field doubled. */
  function EscapeQuotes(f: Field): (e: string)
    ensures |e| >= |f|
    ensures '"' !in f ==> e == f
  {
    if |f| == 0 then []
    else if f[0] == '"' then "\"\"" + EscapeQuotes(f[1..])
    else [f[0]] + EscapeQuotes(f[1..])
  }

  /** One field as the writer emits it. */
  function WriteField(f: Field): string {
    if NeedsQuotes(f) then "\"" + EscapeQuotes(f) + "\"" else f
  }

  /** The fields of a row, each as written, with commas between them. */
  function JoinFields(fields: Row): string
    requires |fields| > 0
  {
    if |fields| == 1 then WriteField(fields[0]) else WriteField(fields[0]) + "," + JoinFields(fields[1..])
  }

  /**
   `writer.writerow`: the joined fields and the line terminator. A row made of
   one empty field is written as `""`, so that it is not read back as a row
   with no fields; a row with no fields is an empty line.
   */
  function WriteRow(fields: Row): string {
    if fields == [""] then "\"\"" + CrLf
    else if |fields| == 0 then CrLf
    else JoinFields(fields) + CrLf
  }

  /** The rows written one after another. */
  function WriteRows(rows: seq<Row>): string {
    if |rows| == 0 then "" else WriteRow(rows[0]) + WriteRows(rows[1..])
  }

  /** Why a text is not a sequence of RFC 4180 records. */
  datatype ParseError = UnterminatedQuote | MissingLineEnd

  /** A character allowed in an unquoted field (RFC 4180's TEXTDATA, widened to all of Unicode). */
  predicate Bare(c: char) {
    !Special(c)
  }

  /** How many characters at the head of `s` need no quotes. */
  function BareLength(s: string): (n: nat)
    ensures n <= |s|
    ensures forall i :: 0 <= i < n ==> Bare(s[i])
    ensures n < |s| ==> !Bare(s[n])
  {
    if |s| > 0 && Bare(s[0]) then 1 + BareLength(s[1..]) else 0
  }

  /** An unquoted field: the longest run of characters that need no quotes, and what follows it. */
  function ParseBare(s: string): (r: (Field, string))
    ensures r.0 + r.1 == s
    ensures |r.1| > 0 ==> !Bare(r.1[0])
  {
    var n := BareLength(s);
    (s[..n], s[n..])
  }

  /** The body of a quoted field, after its opening quote: `""` stands for `"`, a lone `"` closes it. */
  function ParseQuoted(s: string): (r: Result<(Field, string), ParseError>)
    ensures r.Success? ==> |r.value.1| < |s|
  {
    if |s| == 0 then Failure(UnterminatedQuote)
    else if s[0] == '"' then
      if |s| > 1 && s[1] == '"' then
        var (f, rest) :- ParseQuoted(s[2..]);
        Success((['"'] + f, rest))
      else
        Success(([], s[1..]))
    else
      var (f, rest) :- ParseQuoted(s[1..]);
      Success(([s[0]] + f, rest))
  }

  /** One field, quoted or not, and the text after it. */
  function ParseField(s: string): (r: Result<(Field, string), ParseError>)
    ensures r.Success? ==> |r.value.1| <= |s|
  {
    if |s| > 0 && s[0] == '"' then ParseQuoted(s[1..]) else Success(ParseBare(s))
  }

  /** One record: fields separated by commas and ended by `\r\n`, and the text after it. */
  function ParseRecord(s: string): (r: Result<(Row, string), ParseError>)
    ensures r.Success? ==> |r.value.0| > 0 && |r.value.1| < |s|
    decreases |s|
  {
    var (f, rest) :- ParseField(s);
    if |rest| > 0 && rest[0] == ',' then
      var (fs, after) :- ParseRecord(rest[1..]);
      Success(([f] + fs, after))
    else if CrLf <= rest then
      Success(([f], rest[2..]))
    else
      Failure(MissingLineEnd)
  }

  /** A whole text as records, in order. */
  function Parse(s: string): Result<seq<Row>, ParseError>
    decreases |s|
  {
    if |s| == 0 then Success([])
    else
      var (row, rest) :- ParseRecord(s);
      var rows :- Parse(rest);
      Success([row] + rows)
  }

  /** The unquoted run of a written field, followed by a delimiter or a line end, is the field. */
  lemma {:induction false} BareLengthWritten(f: Field, t: string)
    requires !NeedsQuotes(f)
    requires |t| > 0 && (t[0] == ',' || t[0] == '\r')
    ensures BareLength(f + t) == |f|
    decreases |f|
  {
    if |f| > 0 {
      assert !Special(f[0]);
      assert (f + t)[1..] == f[1..] + t;
      assert !NeedsQuotes(f[1..]) by {
        forall i | 0 <= i < |f[1..]| ensures !Special(f[1..][i]) {
          assert f[1..][i] == f[i + 1];
        }
      }
      BareLengthWritten(f[1..], t);
    } else {
      assert f + t == t;
    }
  }

  /** An unquoted field is read back up to the delimiter or line end that follows it. */
  lemma ParseBareWritten(f: Field, t: string)
    requires !NeedsQuotes(f)
    requires |t| > 0 && (t[0] == ',' || t[0] == '\r')
    ensures ParseBare(f + t) == (f, t)
  {
    BareLengthWritten(f, t);
    assert (f + t)[..|f|] == f;
    assert (f + t)[|f|..] == t;
  }

  /** A quoted field's escaped body and closing quote are read back as the field. */
  lemma {:induction false} ParseQuotedWritten(f: Field, t: string)
    requires |t| == 0 || t[0] != '"'
    ensures ParseQuoted(EscapeQuotes(f) + "\"" + t) == Success((f, t))
    decreases |f|
  {
    var s := EscapeQuotes(f) + "\"" + t;
    if |f| == 0 {
      assert s == "\"" + t;
      assert s[1..] == t;
    } else if f[0] == '"' {
      assert s == "\"\"" + (EscapeQuotes(f[1..]) + "\"" + t);
      assert s[2..] == EscapeQuotes(f[1..]) + "\"" + t;
      ParseQuotedWritten(f[1..], t);
      assert ['"'] + f[1..] == f;
    } else {
      assert s == [f[0]] + (EscapeQuotes(f[1..]) + "\"" + t);
      assert s[1..] == EscapeQuotes(f[1..]) + "\"" + t;
      ParseQuotedWritten(f[1..], t);
      assert [f[0]] + f[1..] == f;
    }
  }

  /** A quoted field is read back from its opening quote. */
  lemma ParseFieldQuoted(f: Field, t: string)
    requires |t| == 0 || t[0] != '"'
    ensures ParseField("\"" + EscapeQuotes(f) + "\"" + t) == Success((f, t))
  {
    var body := EscapeQuotes(f) + "\"" + t;
    var s := "\"" + EscapeQuotes(f) + "\"" + t;
    assert s == "\"" + body;
    assert s[0] == '"' && s[1..] == body;
    ParseQuotedWritten(f, t);
  }

  /** An unquoted field is read back as it stands. */
  lemma ParseFieldBare(f: Field, t: string)
    requires !NeedsQuotes(f)
    requires |t| > 0 && (t[0] == ',' || t[0] == '\r')
    ensures ParseField(f + t) == Success((f, t))
  {
    var s := f + t;
    assert s[0] != '"' by {
      if |f| > 0 {
        assert s[0] == f[0];
        assert !Special(f[0]);
      }
    }
    ParseBareWritten(f, t);
  }

  /** A written field, followed by a delimiter or a line end, is read back as itself. */
  lemma ParseFieldWritten(f: Field, t: string)
    requires |t| > 0 && (t[0] == ',' || t[0] == '\r')
    ensures ParseField(WriteField(f) + t) == Success((f, t))
  {
    if NeedsQuotes(f) {
      ParseFieldQuoted(f, t);
    } else {
      ParseFieldBare(f, t);
    }
  }

  /** A field followed by a line end closes the record. */
  lemma RecordEnds(s: string, f: Field, rest: string)
    requires ParseField(s) == Success((f, rest)) && CrLf <= rest
    ensures ParseRecord(s) == Success(([f], rest[2..]))
  {
  }

  /** A field followed by a comma heads the record read after the comma. */
  lemma RecordContinues(s: string, f: Field, rest: string)
    requires ParseField(s) == Success((f, rest)) && |rest| > 0 && rest[0] == ','
    requires ParseRecord(rest[1..]).Success?
    ensures ParseRecord(s) == Success(([f] + ParseRecord(rest[1..]).value.0, ParseRecord(rest[1..]).value.1))
  {
  }

  /** A record's last field, read back with the line end after it. */
  lemma ParseLastField(f: Field, t: string)
    ensures ParseRecord(WriteField(f) + CrLf + t) == Success(([f], t))
  {
    var rest := CrLf + t;
    assert WriteField(f) + CrLf + t == WriteField(f) + rest;
    ParseFieldWritten(f, rest);
    assert CrLf <= rest && rest[2..] == t;
    RecordEnds(WriteField(f) + rest, f, rest);
  }

  /** A record's field followed by a comma, read back ahead of the fields after it. */
  lemma ParseNextField(f: Field, more: string)
    requires ParseRecord(more).Success?
    ensures ParseRecord(WriteField(f) + "," + more)
         == Success(([f] + ParseRecord(more).value.0, ParseRecord(more).value.1))
  {
    var rest := "," + more;
    assert WriteField(f) + "," + more == WriteField(f) + rest;
    ParseFieldWritten(f, rest);
    assert rest[1..] == more;
    RecordContinues(WriteField(f) + rest, f, rest);
  }

  /** A written record of one field is that field as written. */
  lemma JoinOne(fields: Row, t: string)
    requires |fields| == 1
    ensures JoinFields(fields) + CrLf + t == WriteField(fields[0]) + CrLf + t
    ensures [fields[0]] == fields
  {
  }

  /** A written record of several fields is its first field, a comma, and the rest written. */
  lemma JoinMore(fields: Row, t: string)
    requires |fields| > 1
    ensures JoinFields(fields) + CrLf + t == WriteField(fields[0]) + "," + (JoinFields(fields[1..]) + CrLf + t)
  {
    var head, tail := WriteField(fields[0]), JoinFields(fields[1..]);
    assert JoinFields(fields) == head + "," + tail;
    Regroup(JoinFields(fields), CrLf, t);
    Regroup(head + ",", tail, CrLf + t);
    Regroup(tail, CrLf, t);
  }

  /** Concatenation regrouped. */
  lemma Regroup<T>(a: seq<T>, b: seq<T>, c: seq<T>)
    ensures a + b + c == a + (b + c)
  {
  }

  /** A non-empty sequence is its head followed by its tail. */
  lemma HeadTail<T>(s: seq<T>)
    requires |s| > 0
    ensures [s[0]] + s[1..] == s
  {
  }

  /** A written record, followed by anything, is read back as its fields and that rest. */
  lemma {:induction false} ParseJoinedWritten(fields: Row, t: string)
    requires |fields| > 0
    ensures ParseRecord(JoinFields(fields) + CrLf + t) == Success((fields, t))
    decreases |fields|
  {
    if |fields| == 1 {
      JoinOne(fields, t);
      ParseLastField(fields[0], t);
    } else {
      JoinMore(fields, t);
      HeadTail(fields);
      ParseJoinedWritten(fields[1..], t);
      ParseNextField(fields[0], JoinFields(fields[1..]) + CrLf + t);
    }
  }

  /** A written row with at least one field is read back as that row. */
  lemma ParseRowWritten(fields: Row, t: string)
    requires |fields| > 0
    ensures ParseRecord(WriteRow(fields) + t) == Success((fields, t))
  {
    if fields == [""] {
      var s := WriteRow(fields) + t;
      assert s == "\"" + ("" + "\"" + (CrLf + t));
      assert EscapeQuotes("") == "";
      ParseQuotedWritten("", CrLf + t);
      assert s[1..] == EscapeQuotes("") + "\"" + (CrLf + t);
      assert (CrLf + t)[2..] == t;
    } else {
      assert WriteRow(fields) + t == JoinFields(fields) + CrLf + t;
      ParseJoinedWritten(fields, t);
    }
  }

  /** Reading the written text gives back every row, in order; rows with no fields are never written by a `DictWriter`. */
  lemma {:induction false} ParseWritten(rows: seq<Row>)
    requires forall k :: 0 <= k < |rows| ==> |rows[k]| > 0
    ensures Parse(WriteRows(rows)) == Success(rows)
    decreases |rows|
  {
    if |rows| > 0 {
      var rest := WriteRows(rows[1..]);
      ParseRowWritten(rows[0], rest);
      ParseWritten(rows[1..]);
      ParseStep(WriteRows(rows), rows[0], rest);
      HeadTail(rows);
    }
  }

  /** A record read from the head of a text comes before the records of the text after it. */
  lemma ParseStep(s: string, row: Row, rest: string)
    requires ParseRecord(s) == Success((row, rest)) && Parse(rest).Success?
    ensures Parse(s) == Success([row] + Parse(rest).value)
  {
  }
}
