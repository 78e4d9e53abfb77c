/** Python's `csv.writer` with its default `excel` dialect, as the backend's
    export uses it: comma delimiter, `"` quote character with doubling, minimal
    quoting and CRLF row endings (section 2 of RFC 4180). A reader for the same
    grammar is the writer's partner: reading what was written gives the rows back. */
module PythonCsv {
  import Seqs
  import Text

  /** The characters that force a field into quotes: the delimiter, the quote
      character, and the line-ending characters. */
  predicate Special(c: char) {
    c == ',' || c == '"' || c == '\r' || c == '\n'
  }

  predicate NeedsQuotes(f: string) {
    exists i :: 0 <= i < |f| && Special(f[i])
  }

  /** Each embedded quote written twice (`doublequote=True`). */
  function Double(f: string): string
    decreases |f|
  {
    if |f| == 0 then ""
    else if f[0] == '"' then "\"\"" + Double(f[1..])
    else [f[0]] + Double(f[1..])
  }

  /** Doubling adds one character per quote and keeps every other character. */
  lemma {:induction false} DoubleCounts(f: string)
    ensures |Double(f)| == |f| + multiset(f)['"']
    ensures multiset(Double(f))['"'] == 2 * multiset(f)['"']
    ensures forall c :: c != '"' ==> multiset(Double(f))[c] == multiset(f)[c]
    decreases |f|
  {
    if |f| > 0 {
      DoubleCounts(f[1..]);
      assert f == [f[0]] + f[1..];
      assert multiset(f) == multiset{f[0]} + multiset(f[1..]);
      if f[0] == '"' {
        assert multiset(Double(f)) == multiset{'"', '"'} + multiset(Double(f[1..]));
      } else {
        assert multiset(Double(f)) == multiset{f[0]} + multiset(Double(f[1..]));
      }
    }
  }

  /** One field under QUOTE_MINIMAL. */
  function EncodeField(f: string): (r: string)
    ensures NeedsQuotes(f) ==> |r| >= 2 && r[0] == '"' && r[|r| - 1] == '"'
    ensures !NeedsQuotes(f) ==> r == f
  {
    if NeedsQuotes(f) then "\"" + Double(f) + "\"" else f
  }

  function EncodeFields(fs: seq<string>): (r: seq<string>)
    ensures |r| == |fs| && forall i :: 0 <= i < |r| ==> r[i] == EncodeField(fs[i])
    decreases |fs|
  {
    if |fs| == 0 then [] else [EncodeField(fs[0])] + EncodeFields(fs[1..])
  }

  /** `writer.writerow(fs)`: the encoded fields joined by commas, then CRLF. A row
      whose only field is empty is written as `""` so that it reads back as a field. */
  function WriteRow(fs: seq<string>): (r: string)
    ensures |r| >= 2 && r[|r| - 2..] == "\r\n"
  {
    (if |fs| == 1 && fs[0] == "" then "\"\"" else Text.Join(EncodeFields(fs), ",")) + "\r\n"
  }

  function WriteRows(rows: seq<seq<string>>): string {
    Seqs.Concat(rows, WriteRow)
  }

  // ---- the reader ----

  /** The body of a quoted field after its opening quote: up to the lone closing
      quote, with each doubled quote read as one. */
  function ReadQuoted(s: string): (r: (string, string))
    ensures |r.1| < |s| || s == ""
    decreases |s|
  {
    if |s| == 0 then ("", "")
    else if s[0] == '"' then
      if |s| >= 2 && s[1] == '"' then
        var inner := ReadQuoted(s[2..]);
        ("\"" + inner.0, inner.1)
      else ("", s[1..])
    else
      var inner := ReadQuoted(s[1..]);
      ([s[0]] + inner.0, inner.1)
  }

  /** An unquoted field: up to the next comma or carriage return. */
  function ReadPlain(s: string): (r: (string, string))
    ensures |r.1| <= |s|
    decreases |s|
  {
    if |s| == 0 || s[0] == ',' || s[0] == '\r' then ("", s)
    else
      var inner := ReadPlain(s[1..]);
      ([s[0]] + inner.0, inner.1)
  }

  function ReadField(s: string): (r: (string, string))
    ensures |r.1| <= |s|
  {
    if |s| > 0 && s[0] == '"' then ReadQuoted(s[1..]) else ReadPlain(s)
  }

  /** The fields of one record and what follows it. */
  function ReadRecord(s: string): (r: (seq<string>, string))
    ensures |r.0| >= 1 && |r.1| <= |s|
    decreases |s|
  {
    var f := ReadField(s);
    if |f.1| > 0 && f.1[0] == ',' then
      var more := ReadRecord(f.1[1..]);
      ([f.0] + more.0, more.1)
    else ([f.0], f.1)
  }

  /** Records, each ending in CRLF, until the input is used up. */
  function ReadRows(s: string): seq<seq<string>>
    decreases |s|
  {
    if |s| == 0 then []
    else
      var rec := ReadRecord(s);
      if |rec.1| >= 2 && rec.1[..2] == "\r\n" then [rec.0] + ReadRows(rec.1[2..]) else [rec.0]
  }

  // ---- round trip ----

  /** One step of the quoted reader: a doubled quote, or any other character. */
  lemma ReadQuotedStep(c: char, tail: string)
    ensures c == '"' ==> ReadQuoted("\"\"" + tail) == ("\"" + ReadQuoted(tail).0, ReadQuoted(tail).1)
    ensures c != '"' ==> ReadQuoted([c] + tail) == ([c] + ReadQuoted(tail).0, ReadQuoted(tail).1)
  {
    if c == '"' {
      assert ("\"\"" + tail)[2..] == tail;
    } else {
      assert ([c] + tail)[1..] == tail;
    }
  }

  lemma {:induction false} ReadQuotedDoubled(f: string, rest: string)
    requires rest == "" || rest[0] != '"'
    ensures ReadQuoted(Double(f) + "\"" + rest) == (f, rest)
    decreases |f|
  {
    if |f| == 0 {
      var s := Double(f) + "\"" + rest;
      assert s == "\"" + rest;
      assert s[1..] == rest;
    } else {
      var tail := Double(f[1..]) + "\"" + rest;
      ReadQuotedDoubled(f[1..], rest);
      ReadQuotedStep(f[0], tail);
      DoubleFirst(f, rest);
      if f[0] == '"' {
        assert "\"" + f[1..] == f;
      } else {
        assert [f[0]] + f[1..] == f;
      }
    }
  }

  /** Doubling writes the first character (twice if it is a quote) before the rest. */
  lemma DoubleFirst(f: string, rest: string)
    requires |f| > 0
    ensures f[0] == '"' ==> Double(f) + "\"" + rest == "\"\"" + (Double(f[1..]) + "\"" + rest)
    ensures f[0] != '"' ==> Double(f) + "\"" + rest == [f[0]] + (Double(f[1..]) + "\"" + rest)
  {
    var head := if f[0] == '"' then "\"\"" else [f[0]];
    var d := Double(f[1..]);
    assert Double(f) == head + d;
    Associative(head, d, "\"");
    Associative(head, d + "\"", rest);
  }

  /** Concatenation regrouped. */
  lemma Associative(a: string, b: string, c: string)
    ensures a + b + c == a + (b + c)
  {
  }

  lemma {:induction false} ReadPlainUnquoted(f: string, rest: string)
    requires !NeedsQuotes(f)
    requires rest == "" || rest[0] == ',' || rest[0] == '\r'
    ensures ReadPlain(f + rest) == (f, rest)
    decreases |f|
  {
    if |f| > 0 {
      assert !Special(f[0]);
      assert !NeedsQuotes(f[1..]) by {
        forall i | 0 <= i < |f[1..]| ensures !Special(f[1..][i]) {
          assert f[1..][i] == f[i + 1];
        }
      }
      ReadPlainUnquoted(f[1..], rest);
      assert (f + rest)[1..] == f[1..] + rest;
      assert f == [f[0]] + f[1..];
    } else {
      assert f + rest == rest;
    }
  }

  /** Reading an encoded field gives the field back, and the rest untouched. */
  lemma ReadFieldEncoded(f: string, rest: string)
    requires rest == "" || rest[0] == ',' || rest[0] == '\r'
    ensures ReadField(EncodeField(f) + rest) == (f, rest)
  {
    if NeedsQuotes(f) {
      var d := Double(f);
      Associative("\"", d, "\"");
      Associative("\"", d + "\"", rest);
      var s := EncodeField(f) + rest;
      assert s == "\"" + (d + "\"" + rest);
      assert s[1..] == d + "\"" + rest;
      ReadQuotedDoubled(f, rest);
    } else {
      if |f| > 0 {
        assert !Special(f[0]);
        assert (f + rest)[0] == f[0];
      } else {
        assert f + rest == rest;
      }
      ReadPlainUnquoted(f, rest);
    }
  }

  lemma {:induction false} ReadRecordEncoded(fs: seq<string>, rest: string)
    requires |fs| >= 1
    requires rest == "" || rest[0] == '\r'
    ensures ReadRecord(Text.Join(EncodeFields(fs), ",") + rest) == (fs, rest)
    decreases |fs|
  {
    var es := EncodeFields(fs);
    if |fs| == 1 {
      assert Text.Join(es, ",") == EncodeField(fs[0]);
      ReadFieldEncoded(fs[0], rest);
      assert fs == [fs[0]];
    } else {
      var tail := Text.Join(es[1..], ",") + rest;
      assert es[1..] == EncodeFields(fs[1..]);
      ReadRecordEncoded(fs[1..], rest);
      assert Text.Join(es, ",") + rest == EncodeField(fs[0]) + ("," + tail);
      ReadFieldEncoded(fs[0], "," + tail);
      assert ("," + tail)[1..] == tail;
      assert fs == [fs[0]] + fs[1..];
    }
  }

  /** Reading a written row gives back its fields, followed by what comes after it. */
  lemma ReadWrittenRow(fs: seq<string>, after: string)
    requires |fs| >= 1
    ensures ReadRecord(WriteRow(fs) + after) == (fs, "\r\n" + after)
  {
    if |fs| == 1 && fs[0] == "" {
      var s := "\"\"" + "\r\n" + after;
      assert WriteRow(fs) + after == s;
      var q := "\"" + ("\r\n" + after);
      assert s[1..] == q;
      assert q[1] == '\r' && q[1..] == "\r\n" + after;
      assert ReadQuoted(q) == ("", "\r\n" + after);
      assert ReadField(s) == ("", "\r\n" + after);
      assert fs == [""];
    } else {
      assert WriteRow(fs) + after == Text.Join(EncodeFields(fs), ",") + ("\r\n" + after);
      ReadRecordEncoded(fs, "\r\n" + after);
    }
  }

  /** A written row, read as the first of several, comes back whole. */
  lemma ReadRowsStep(fs: seq<string>, after: string)
    requires |fs| >= 1
    ensures ReadRows(WriteRow(fs) + after) == [fs] + ReadRows(after)
  {
    var s := WriteRow(fs) + after;
    ReadWrittenRow(fs, after);
    var rest := "\r\n" + after;
    assert rest[..2] == "\r\n" && rest[2..] == after;
    assert |s| > 0;
  }

  /** The file the writer produces reads back as exactly the rows written. */
  lemma {:induction false} ReadWrittenRows(rows: seq<seq<string>>)
    requires forall i :: 0 <= i < |rows| ==> |rows[i]| >= 1
    ensures ReadRows(WriteRows(rows)) == rows
    decreases |rows|
  {
    if |rows| > 0 {
      ReadWrittenRows(rows[1..]);
      ReadRowsStep(rows[0], WriteRows(rows[1..]));
      assert rows == [rows[0]] + rows[1..];
    }
  }
}
