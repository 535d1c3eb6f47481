/** The text layer of a CSV line. `export_data` joins its rendered fields with commas in
    an f-string, with no quoting; a CSV reader then splits a field that contains a comma
    in two. `save_csv` goes through Python's `csv.writer`, which quotes a field that
    contains a delimiter, a quote or a line break and doubles the quotes inside it; a
    reader gets every such line's fields back. */
module CsvText {

  /** Fields joined by commas, as the export's f-string does: the text of an export line
      from its rendered fields (the first line of the export, its header, holds no comma
      inside a name). */
  function Join(fields: seq<string>): string
  {
    if fields == [] then ""
    else if |fields| == 1 then fields[0]
    else fields[0] + "," + Join(fields[1..])
  }

  /** The default reader's parse of the text after a quoted field's opening quote: the
      field's content, with `""` read as one `"`, and the text after its closing quote. */
  function QuotedPart(s: string): (r: (string, string))
    ensures |r.1| <= |s|
  {
    if s == [] then ("", "")
    else if s[0] == '"' then
      if |s| > 1 && s[1] == '"' then
        var (f, rest) := QuotedPart(s[2..]);
        (['"'] + f, rest)
      else ("", s[1..])
    else
      var (f, rest) := QuotedPart(s[1..]);
      ([s[0]] + f, rest)
  }

  /** The parse of an unquoted field: the text up to the first comma, and the rest from
      that comma on. */
  function UnquotedPart(s: string): (r: (string, string))
    ensures |r.1| <= |s|
  {
    if s == [] || s[0] == ',' then ("", s)
    else
      var (f, rest) := UnquotedPart(s[1..]);
      ([s[0]] + f, rest)
  }

  /** The first field of `s` as a reader parses it, and the text after it. */
  function FieldRead(s: string): (r: (string, string))
    ensures |r.1| <= |s|
  {
    if |s| > 0 && s[0] == '"' then QuotedPart(s[1..]) else UnquotedPart(s)
  }

  /** The fields a CSV reader finds on one line. */
  function Fields(s: string): seq<string>
    decreases |s|
  {
    var (f, rest) := FieldRead(s);
    if |rest| > 0 && rest[0] == ',' then [f] + Fields(rest[1..]) else [f]
  }

  /** The fields a writer must quote. */
  predicate NeedsQuotes(f: string)
  {
    ',' in f || '"' in f || '\r' in f || '\n' in f
  }

  /** `f` with every `"` doubled. */
  function Escape(f: string): string
  {
    if f == [] then []
    else (if f[0] == '"' then "\"\"" else [f[0]]) + Escape(f[1..])
  }

  /** A field as `csv.writer` writes it. */
  function QuoteField(f: string): string
  {
    if NeedsQuotes(f) then "\"" + Escape(f) + "\"" else f
  }

  /** A line as `csv.writer` writes it: every field quoted where needed, then joined by
      commas. A record of one empty field, which `csv.writer` writes as `""`, is left
      bare here; no ledger row has a single field. */
  function CsvLine(fields: seq<string>): string
  {
    if fields == [] then ""
    else if |fields| == 1 then QuoteField(fields[0])
    else QuoteField(fields[0]) + "," + CsvLine(fields[1..])
  }

  /** The text ends the line or starts the next field. */
  predicate AtFieldEnd(t: string)
  {
    t == [] || t[0] == ','
  }

  /** The reader undoes `Escape` and stops at the closing quote. */
  lemma {:induction false} QuotedPartOfEscape(f: string, t: string)
    requires AtFieldEnd(t)
    ensures QuotedPart(Escape(f) + "\"" + t) == (f, t)
  {
    if f == [] {
      assert Escape(f) + "\"" + t == ['"'] + t;
    } else {
      var s := Escape(f) + "\"" + t;
      var inner := Escape(f[1..]) + "\"" + t;
      QuotedPartOfEscape(f[1..], t);
      if f[0] == '"' {
        assert s == "\"\"" + inner;
        assert s[0] == '"' && s[1] == '"' && s[2..] == inner;
        assert QuotedPart(s) == (['"'] + f[1..], t);
      } else {
        assert s == [f[0]] + inner;
        assert s[0] == f[0] && s[1..] == inner;
        assert QuotedPart(s) == ([f[0]] + f[1..], t);
      }
      assert [f[0]] + f[1..] == f;
    }
  }

  /** An unquoted field without commas is read up to where it ends. */
  lemma {:induction false} UnquotedPartOfPlain(f: string, t: string)
    requires ',' !in f && AtFieldEnd(t)
    ensures UnquotedPart(f + t) == (f, t)
  {
    if f == [] {
      assert f + t == t;
    } else {
      UnquotedPartOfPlain(f[1..], t);
      assert (f + t)[1..] == f[1..] + t;
      assert [f[0]] + f[1..] == f;
    }
  }

  /** A quoted field is read back to its content and stops after the closing quote. */
  lemma QuotedFieldRead(f: string, t: string)
    requires AtFieldEnd(t)
    ensures FieldRead("\"" + Escape(f) + "\"" + t) == (f, t)
  {
    var body := Escape(f) + "\"" + t;
    assert "\"" + Escape(f) + "\"" + t == ['"'] + body;
    QuotedPartOfEscape(f, t);
  }

  /** A field without comma or quote is read back up to where it ends. */
  lemma PlainFieldRead(f: string, t: string)
    requires ',' !in f && '"' !in f && AtFieldEnd(t)
    ensures FieldRead(f + t) == (f, t)
  {
    if f != [] {
      assert (f + t)[0] == f[0];
    }
    UnquotedPartOfPlain(f, t);
  }

  /** Reading a field as written gives the field back and stops where it ends. */
  lemma WrittenFieldRead(f: string, t: string)
    requires AtFieldEnd(t)
    ensures FieldRead(QuoteField(f) + t) == (f, t)
  {
    if NeedsQuotes(f) {
      QuotedFieldRead(f, t);
    } else {
      PlainFieldRead(f, t);
    }
  }

  /** A CSV reader gets back exactly the fields that `csv.writer` wrote, whatever they
      contain. */
  lemma {:induction false} CsvLineRoundTrip(fields: seq<string>)
    requires |fields| >= 1
    ensures Fields(CsvLine(fields)) == fields
  {
    if |fields| == 1 {
      WrittenFieldRead(fields[0], "");
      assert CsvLine(fields) == QuoteField(fields[0]) + "";
    } else {
      var t := "," + CsvLine(fields[1..]);
      WrittenFieldRead(fields[0], t);
      assert CsvLine(fields) == QuoteField(fields[0]) + t;
      assert t[1..] == CsvLine(fields[1..]);
      CsvLineRoundTrip(fields[1..]);
      assert [fields[0]] + fields[1..] == fields;
    }
  }

  /** An unquoted field and the rest of the line put back together give the line. */
  lemma {:induction false} UnquotedPartSplits(s: string)
    ensures UnquotedPart(s).0 + UnquotedPart(s).1 == s
    ensures ',' !in UnquotedPart(s).0 && AtFieldEnd(UnquotedPart(s).1)
  {
    if s != [] && s[0] != ',' {
      UnquotedPartSplits(s[1..]);
      assert [s[0]] + s[1..] == s;
    }
  }

  /** On a line without quotes the reader finds one field more than there are commas. */
  lemma {:induction false} FieldsOfUnquoted(s: string)
    requires '"' !in s
    ensures |Fields(s)| == multiset(s)[','] + 1
    decreases |s|
  {
    var (f, rest) := UnquotedPart(s);
    UnquotedPartSplits(s);
    if s != [] {
      assert s[0] in s;
    }
    assert FieldRead(s) == UnquotedPart(s);
    assert s == f + rest;
    assert multiset(s)[','] == multiset(f)[','] + multiset(rest)[','];
    assert multiset(f)[','] == 0;
    if s != [] {
      assert s[0] != '"';
    }
    if rest != [] {
      assert rest == [','] + rest[1..];
      assert multiset(rest)[','] == 1 + multiset(rest[1..])[','];
      assert forall c :: c in rest[1..] ==> c in s;
      FieldsOfUnquoted(rest[1..]);
    }
  }

  /** Joining `n` fields puts `n - 1` commas between them, on top of the commas the
      fields hold, and brings in no quote. */
  lemma {:induction false} JoinCounts(fields: seq<string>)
    requires |fields| >= 1
    ensures (forall i :: 0 <= i < |fields| ==> '"' !in fields[i]) ==> '"' !in Join(fields)
    ensures multiset(Join(fields))[','] >= |fields| - 1
    ensures (exists i :: 0 <= i < |fields| && ',' in fields[i]) ==> multiset(Join(fields))[','] >= |fields|
  {
    if |fields| > 1 {
      JoinCounts(fields[1..]);
      var j := fields[0] + "," + Join(fields[1..]);
      assert multiset(j)[','] == multiset(fields[0])[','] + 1 + multiset(Join(fields[1..]))[','];
      if ',' in fields[0] {
        assert multiset(fields[0])[','] >= 1;
      }
      if exists i :: 0 <= i < |fields| && ',' in fields[i] {
        var i :| 0 <= i < |fields| && ',' in fields[i];
        if i > 0 {
          assert ',' in fields[1..][i - 1];
        }
      }
      if forall i :: 0 <= i < |fields| ==> '"' !in fields[i] {
        assert forall i :: 0 <= i < |fields| - 1 ==> fields[1..][i] == fields[i + 1];
      }
    }
  }

  /** As written, an export line whose fields hold no quote but one of which holds a
      comma (a department such as "Engineering, Business") is read back with more fields
      than it was built from, so its columns no longer line up with the header. */
  lemma ExportLineTextMisaligned(fields: seq<string>)
    requires |fields| >= 1
    requires forall i :: 0 <= i < |fields| ==> '"' !in fields[i]
    requires exists i :: 0 <= i < |fields| && ',' in fields[i]
    ensures |Fields(Join(fields))| > |fields|
  {
    JoinCounts(fields);
    FieldsOfUnquoted(Join(fields));
  }

  /** One such line: segment 1 of route 1, from (0, 0) to (3, 4), walked in 30 seconds by
      a student of the "Engineering, Business" department, reads back as 14 fields. */
  lemma ExportLineWithCommaInDepartment()
    ensures var fields := ["1", "1", "0", "0", "3", "4", "walking", "5.00", "30", "0.5",
                           "student", "junior", "Engineering, Business"];
      |fields| == 13 && |Fields(Join(fields))| > 13
  {
    var fields := ["1", "1", "0", "0", "3", "4", "walking", "5.00", "30", "0.5",
                   "student", "junior", "Engineering, Business"];
    assert ',' in fields[12] by { assert fields[12][11] == ','; }
    ExportLineTextMisaligned(fields);
  }
}
