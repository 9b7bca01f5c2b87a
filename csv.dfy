/**
 * The CSV export of the final selections (App.jsx:131-158): a header line,
 * then one line per student, in list order, that has a non-empty final
 * selection, and a byte-order mark in front of the whole text. Only the
 * comment is quoted, with embedded quotes doubled (RFC 4180, section 2, rules
 * 6 and 7); the student number and the name are written as they are.
 *
 * `ParseRecord` reads one record back by the rules of RFC 4180, section 2; it
 * is the inverse the row encoder is checked against.
 */
module Csv {
  import opened Wrappers
  import opened Text
  import opened Selection
  import opened Ledger

  /** U+FEFF, put in front of the text so that spreadsheet programs read it as UTF-8. */
  const Bom: string := "\U{FEFF}"

  const Header: string := "학번,이름,종합의견,글자수\n"

  /** `s.replace(/"/g, '""')`. */
  function DoubleQuotes(s: string): (r: string)
    ensures |r| >= |s|
  {
    if s == [] then []
    else (if s[0] == '"' then "\"\"" else [s[0]]) + DoubleQuotes(s[1..])
  }

  /** Escaping adds exactly one character for every `"` of the text. */
  lemma {:induction false} DoubleQuotesLength(s: string)
    ensures |DoubleQuotes(s)| == |s| + multiset(s)['"']
  {
    if s != [] {
      DoubleQuotesLength(s[1..]);
      assert s == [s[0]] + s[1..];
    }
  }

  /** `"${s.replace(/"/g, '""')}"`. */
  function QuoteField(s: string): string {
    "\"" + DoubleQuotes(s) + "\""
  }

  /** One data line without its terminator:
      `${studentNum},${name},${escapedOpinion},${charCount}`. The count is the
      length of the opinion before escaping. */
  function Line(num: string, name: string, opinion: string): string {
    Join([num, name, QuoteField(opinion), NatToString(|opinion|)], ",")
  }

  /** The student's final opinion is truthy: present and non-empty. */
  predicate Exported(st: Student, finals: map<string, string>) {
    var key := StudentKey(st, "");
    key in finals && finals[key] != ""
  }

  /** What one iteration of `students.forEach` appends to the text. */
  function Row(st: Student, finals: map<string, string>): string {
    if Exported(st, finals) then
      Line(FieldValue(st, NumberField), FieldValue(st, NameField), finals[StudentKey(st, "")]) + "\n"
    else ""
  }

  /** `f` applied to each element, the results concatenated in order, defined
      from the back as a loop builds it. */
  function ConcatMap<T>(xs: seq<T>, f: T -> string): string {
    if xs == [] then "" else ConcatMap(xs[..|xs| - 1], f) + f(xs[|xs| - 1])
  }

  lemma ConcatMapSnoc<T>(xs: seq<T>, x: T, f: T -> string)
    ensures ConcatMap(xs + [x], f) == ConcatMap(xs, f) + f(x)
  {
    assert (xs + [x])[..|xs|] == xs;
  }

  lemma {:induction false} ConcatMapAppend<T>(a: seq<T>, b: seq<T>, f: T -> string)
    ensures ConcatMap(a + b, f) == ConcatMap(a, f) + ConcatMap(b, f)
  {
    if b == [] {
      assert a + b == a;
    } else {
      var b', x := b[..|b| - 1], b[|b| - 1];
      assert b == b' + [x];
      assert a + b == (a + b') + [x];
      ConcatMapAppend(a, b', f);
      ConcatMapSnoc(a + b', x, f);
      ConcatMapSnoc(b', x, f);
    }
  }

  /** What the loop appends for a list of students. */
  function Rows(students: seq<Student>, finals: map<string, string>): string {
    ConcatMap(students, st => Row(st, finals))
  }

  /** The text `exportToCSV` downloads, or `None` when there are no final selections
      (the alert path, which writes nothing). */
  function ExportText(students: seq<Student>, finals: map<string, string>): (r: Option<string>)
    ensures r.None? <==> |finals| == 0
    ensures r.Some? ==> r.value == Bom + Header + Rows(students, finals)
  {
    if |finals| == 0 then None else Some(Bom + Header + Rows(students, finals))
  }

  lemma RowsSnoc(students: seq<Student>, st: Student, finals: map<string, string>)
    ensures Rows(students + [st], finals) == Rows(students, finals) + Row(st, finals)
  {
    ConcatMapSnoc(students, st, st => Row(st, finals));
  }

  /** The rows of the first `i` students, as the export loop has built them
      after `i` iterations. */
  function RowsUpTo(students: seq<Student>, i: nat, finals: map<string, string>): string
    requires i <= |students|
  {
    if i == 0 then "" else RowsUpTo(students, i - 1, finals) + Row(students[i - 1], finals)
  }

  /** After `i` iterations the loop has built the rows of the list's first `i` students. */
  lemma {:induction false} RowsUpToPrefix(students: seq<Student>, i: nat, finals: map<string, string>)
    requires i <= |students|
    ensures RowsUpTo(students, i, finals) == Rows(students[..i], finals)
  {
    if i > 0 {
      RowsUpToPrefix(students, i - 1, finals);
      assert students[..i] == students[..i - 1] + [students[i - 1]];
      RowsSnoc(students[..i - 1], students[i - 1], finals);
    }
  }

  /** One iteration of the export loop: appending the student's row to the
      text built so far extends it by one student. */
  lemma RowsUpToStep(students: seq<Student>, i: nat, finals: map<string, string>, csv: string, line: string)
    requires i < |students| && csv == Header + RowsUpTo(students, i, finals) && line == Row(students[i], finals)
    ensures csv + line == Header + RowsUpTo(students, i + 1, finals)
  {
  }

  /** Once the loop has gone through every student, the BOM in front of the
      header and the rows is the export text. */
  lemma ExportOfAllRows(students: seq<Student>, finals: map<string, string>, csv: string)
    requires |finals| > 0 && csv == Header + RowsUpTo(students, |students|, finals)
    ensures ExportText(students, finals) == Some(Bom + csv)
  {
    RowsUpToPrefix(students, |students|, finals);
    assert students[..|students|] == students;
    assert Bom + csv == Bom + Header + Rows(students, finals);
  }

  /** Rows for a concatenated list are the rows of each part, in order. */
  lemma RowsAppend(a: seq<Student>, b: seq<Student>, finals: map<string, string>)
    ensures Rows(a + b, finals) == Rows(a, finals) + Rows(b, finals)
  {
    ConcatMapAppend(a, b, st => Row(st, finals));
  }

  /** Students without a truthy final selection contribute nothing. */
  lemma {:induction false} RowsOfUnselected(students: seq<Student>, finals: map<string, string>)
    requires forall i :: 0 <= i < |students| ==> !Exported(students[i], finals)
    ensures Rows(students, finals) == ""
  {
    if students != [] {
      var init := students[..|students| - 1];
      assert students == init + [students[|students| - 1]];
      RowsOfUnselected(init, finals);
      RowsSnoc(init, students[|students| - 1], finals);
    }
  }

  // ---- Reading a record back (RFC 4180, section 2) ----

  /** Reads the inside of a quoted field, which starts right after its opening
      quote, up to the closing quote, turning each doubled quote into one; gives
      the field and what follows the closing quote. */
  function ParseQuoted(s: string): (r: Option<(string, string)>)
    ensures r.Some? ==> |r.value.1| < |s|
  {
    if s == [] then None
    else if s[0] == '"' then
      if |s| > 1 && s[1] == '"' then
        match ParseQuoted(s[2..])
        case None => None
        case Some((f, rest)) => Some(("\"" + f, rest))
      else Some(("", s[1..]))
    else
      match ParseQuoted(s[1..])
      case None => None
      case Some((f, rest)) => Some(([s[0]] + f, rest))
  }

  /** Reads an unquoted field: everything up to the next comma. */
  function ParsePlain(s: string): (r: (string, string))
    ensures r.0 + r.1 == s
    ensures r.1 == [] || r.1[0] == ','
  {
    if s == [] || s[0] == ',' then ("", s)
    else
      var (f, rest) := ParsePlain(s[1..]);
      ([s[0]] + f, rest)
  }

  function PrependField(f: string, r: Option<seq<string>>): Option<seq<string>> {
    match r
    case None => None
    case Some(fs) => Some([f] + fs)
  }

  /** Splits one record into its fields; `None` when a quoted field is not closed
      or is followed by something other than a comma. */
  function ParseRecord(s: string): Option<seq<string>>
    decreases |s|
  {
    if |s| > 0 && s[0] == '"' then
      match ParseQuoted(s[1..])
      case None => None
      case Some((f, rest)) =>
        if rest == [] then Some([f])
        else if rest[0] == ',' then PrependField(f, ParseRecord(rest[1..]))
        else None
    else
      var (f, rest) := ParsePlain(s);
      if rest == [] then Some([f]) else PrependField(f, ParseRecord(rest[1..]))
  }

  /** A field that may stand unquoted: no comma, quote or line break. */
  predicate PlainSafe(x: string) {
    forall i :: 0 <= i < |x| ==> x[i] != ',' && x[i] != '"' && x[i] != '\n' && x[i] != '\r'
  }

  /** Quoting is undone by reading a quoted field, whatever the field holds. */
  lemma {:induction false} ParseQuotedRoundTrip(x: string, rest: string)
    requires rest == [] || rest[0] != '"'
    ensures ParseQuoted(DoubleQuotes(x) + "\"" + rest) == Some((x, rest))
  {
    var s := DoubleQuotes(x) + "\"" + rest;
    if x == [] {
      assert s == "\"" + rest;
      assert s[1..] == rest;
    } else {
      ParseQuotedRoundTrip(x[1..], rest);
      if x[0] == '"' {
        assert s == "\"\"" + (DoubleQuotes(x[1..]) + "\"" + rest);
        assert s[2..] == DoubleQuotes(x[1..]) + "\"" + rest;
        assert x == "\"" + x[1..];
      } else {
        assert s == [x[0]] + (DoubleQuotes(x[1..]) + "\"" + rest);
        assert s[1..] == DoubleQuotes(x[1..]) + "\"" + rest;
        assert x == [x[0]] + x[1..];
      }
    }
  }

  lemma {:induction false} ParsePlainRoundTrip(x: string, rest: string)
    requires PlainSafe(x)
    requires rest == [] || rest[0] == ','
    ensures ParsePlain(x + rest) == (x, rest)
  {
    if x == [] {
      assert x + rest == rest;
    } else {
      assert (x + rest)[1..] == x[1..] + rest;
      ParsePlainRoundTrip(x[1..], rest);
      assert x == [x[0]] + x[1..];
    }
  }

  /** One step of the reader over a quoted field followed by a comma. */
  lemma QuotedStep(s: string, f: string, rest: string)
    requires |s| > 0 && s[0] == '"' && ParseQuoted(s[1..]) == Some((f, rest))
    requires |rest| > 0 && rest[0] == ','
    ensures ParseRecord(s) == PrependField(f, ParseRecord(rest[1..]))
  {
  }

  /** One step of the reader over an unquoted field followed by a comma. */
  lemma PlainStep(s: string, f: string, rest: string)
    requires (|s| == 0 || s[0] != '"') && ParsePlain(s) == (f, rest)
    requires |rest| > 0
    ensures ParseRecord(s) == PrependField(f, ParseRecord(rest[1..]))
  {
  }

  lemma PlainFieldThenRest(x: string, rest: string)
    requires PlainSafe(x) && |rest| > 0 && rest[0] == ','
    ensures ParseRecord(x + rest) == PrependField(x, ParseRecord(rest[1..]))
  {
    ParsePlainRoundTrip(x, rest);
    assert x == [] ==> (x + rest)[0] == ',';
    PlainStep(x + rest, x, rest);
  }

  lemma PlainFieldLast(x: string)
    requires PlainSafe(x)
    ensures ParseRecord(x) == Some([x])
  {
    ParsePlainRoundTrip(x, []);
    assert x + [] == x;
  }

  lemma QuotedFieldThenRest(x: string, rest: string)
    requires |rest| > 0 && rest[0] == ','
    ensures ParseRecord(QuoteField(x) + rest) == PrependField(x, ParseRecord(rest[1..]))
  {
    var s := QuoteField(x) + rest;
    assert s[1..] == DoubleQuotes(x) + "\"" + rest;
    ParseQuotedRoundTrip(x, rest);
    assert ParseQuoted(s[1..]) == Some((x, rest));
    assert s[0] == '"';
    QuotedStep(s, x, rest);
  }

  lemma DigitsArePlain(s: string)
    requires AllDigits(s)
    ensures PlainSafe(s)
  {
  }

  lemma QuotedFieldLast(x: string)
    ensures ParseRecord(QuoteField(x)) == Some([x])
  {
    var s := QuoteField(x);
    assert s[1..] == DoubleQuotes(x) + "\"" + [];
    ParseQuotedRoundTrip(x, []);
  }

  /** `c` is how the encoder writes the field `f`: quoted, or raw when that is safe. */
  predicate CellOf(c: string, f: string) {
    c == QuoteField(f) || (c == f && PlainSafe(f))
  }

  /** A record whose cells are quoted fields or raw fields without a separator,
      quote or line break reads back as exactly those fields. */
  lemma {:induction false} JoinCellsRoundTrip(cells: seq<string>, fields: seq<string>)
    requires |cells| == |fields| >= 1
    requires forall i :: 0 <= i < |cells| ==> CellOf(cells[i], fields[i])
    ensures ParseRecord(Join(cells, ",")) == Some(fields)
  {
    if |cells| == 1 {
      if cells[0] == QuoteField(fields[0]) {
        QuotedFieldLast(fields[0]);
      } else {
        PlainFieldLast(fields[0]);
      }
      assert fields == [fields[0]];
    } else {
      var j := Join(cells[1..], ",");
      JoinCellsRoundTrip(cells[1..], fields[1..]);
      var t := "," + j;
      assert t[1..] == j;
      assert Join(cells, ",") == cells[0] + t;
      if cells[0] == QuoteField(fields[0]) {
        QuotedFieldThenRest(fields[0], t);
      } else {
        PlainFieldThenRest(fields[0], t);
      }
      assert fields == [fields[0]] + fields[1..];
    }
  }

  lemma LineCells(num: string, name: string, opinion: string, count: string)
    requires PlainSafe(num) && PlainSafe(name) && AllDigits(count)
    ensures var cells, fields := [num, name, QuoteField(opinion), count], [num, name, opinion, count];
      forall i :: 0 <= i < 4 ==> CellOf(cells[i], fields[i])
  {
    DigitsArePlain(count);
  }

  /** A data line reads back as its four fields — student number, name, the
      opinion as selected, and its length — when the number and the name need
      no quoting. The count field reads back as the opinion's length. */
  lemma LineRoundTrip(num: string, name: string, opinion: string)
    requires PlainSafe(num) && PlainSafe(name)
    ensures ParseRecord(Line(num, name, opinion)) == Some([num, name, opinion, NatToString(|opinion|)])
    ensures ParseNat(NatToString(|opinion|)) == |opinion|
  {
    var count := NatToString(|opinion|);
    LineCells(num, name, opinion, count);
    JoinCellsRoundTrip([num, name, QuoteField(opinion), count], [num, name, opinion, count]);
    ParseNatToString(|opinion|);
  }

  lemma CommaNameCells(num: string, first: string, last: string, opinion: string, count: string)
    requires PlainSafe(num) && PlainSafe(first) && PlainSafe(last) && AllDigits(count)
    ensures ParseRecord(Join([num, first, last, QuoteField(opinion), count], ","))
      == Some([num, first, last, opinion, count])
  {
    DigitsArePlain(count);
    var cells, fields := [num, first, last, QuoteField(opinion), count], [num, first, last, opinion, count];
    assert forall i :: 0 <= i < 5 ==> CellOf(cells[i], fields[i]);
    JoinCellsRoundTrip(cells, fields);
  }

  /** The number and the name are written raw: a name holding a comma, such as
      `Kim,J`, reads back as two fields and shifts the opinion to the fourth. */
  lemma NameWithCommaSplits(num: string, first: string, last: string, opinion: string)
    requires PlainSafe(num) && PlainSafe(first) && PlainSafe(last)
    ensures ParseRecord(Line(num, first + "," + last, opinion))
      == Some([num, first, last, opinion, NatToString(|opinion|)])
  {
    var q, count := QuoteField(opinion), NatToString(|opinion|);
    CommaNameCells(num, first, last, opinion, count);
    JoinSplitSecondOfFour(num, first, last, q, count, ",");
  }

  /** The line is the template `${studentNum},${name},${escapedOpinion},${charCount}`. */
  lemma LineIsTemplate(num: string, name: string, opinion: string)
    ensures Line(num, name, opinion)
      == num + "," + name + "," + QuoteField(opinion) + "," + NatToString(|opinion|)
  {
    JoinFour(num, name, QuoteField(opinion), NatToString(|opinion|), ",");
    RegroupFour(num, name, QuoteField(opinion), NatToString(|opinion|), ",");
  }

  /** One iteration of the export loop appends the template line of a
      student with a truthy final opinion, and nothing for the others. */
  lemma RowIsTemplate(st: Student, finals: map<string, string>)
    ensures var key := StudentKey(st, "");
      Row(st, finals) == if key in finals && finals[key] != "" then
        FieldValue(st, NumberField) + "," + FieldValue(st, NameField) + "," + QuoteField(finals[key])
        + "," + NatToString(|finals[key]|) + "\n"
      else ""
  {
    var key := StudentKey(st, "");
    if key in finals && finals[key] != "" {
      LineIsTemplate(FieldValue(st, NumberField), FieldValue(st, NameField), finals[key]);
    }
  }

  /** A comment without a double quote is written unchanged between the quotes. */
  lemma {:induction false} DoubleQuotesNoQuote(s: string)
    requires '"' !in s
    ensures DoubleQuotes(s) == s
  {
    if s != [] {
      DoubleQuotesNoQuote(s[1..]);
      assert s == [s[0]] + s[1..];
    }
  }

  /** Every student with a truthy final selection has its line, with its own
      number, name, comment and count, in the downloaded text. */
  lemma ExportHasSelectedLine(students: seq<Student>, finals: map<string, string>, i: nat)
    requires i < |students| && Exported(students[i], finals)
    ensures ExportText(students, finals).Some?
    ensures Embeds(ExportText(students, finals).value,
      Line(FieldValue(students[i], NumberField), FieldValue(students[i], NameField),
           finals[StudentKey(students[i], "")]) + "\n")
  {
    var st := students[i];
    RowsSplitAt(students, i, finals);
    EmbedsSelf(Row(st, finals));
    var before, row, after := Rows(students[..i], finals), Row(st, finals), Rows(students[i + 1..], finals);
    RegroupPrefix(Bom + Header, before, row, after);
    EmbedsInMiddle(Bom + Header + before, row, after, row);
  }

  /** The rows of a list are those before a student, that student's row, and
      those after it. */
  lemma RowsSplitAt(students: seq<Student>, i: nat, finals: map<string, string>)
    requires i < |students|
    ensures Rows(students, finals)
      == Rows(students[..i], finals) + Row(students[i], finals) + Rows(students[i + 1..], finals)
  {
    RowsSnoc(students[..i], students[i], finals);
    assert students == (students[..i] + [students[i]]) + students[i + 1..];
    RowsAppend(students[..i] + [students[i]], students[i + 1..], finals);
  }
}
