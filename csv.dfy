/**
 * CSV text as section 2 of RFC 4180 describes it: fields separated by commas, records by a
 * line break, and a field holding a comma, a double quote or a line break enclosed in double
 * quotes with each inner double quote written twice. The encoder is the roster script's light
 * escaping; the decoder reads the format back.
 */
module Csv {
  import opened Wrappers
  import opened Text

  /** The escaping quotes exactly the fields that hold a comma, a double quote or a line feed. */
  predicate NeedsQuotes(s: string) {
    ',' in s || '"' in s || '\n' in s
  }

  /** Every double quote written twice. */
  function Doubled(s: string): (r: string)
    ensures |r| >= |s|
  {
    if s == [] then [] else (if s[0] == '"' then "\"\"" else [s[0]]) + Doubled(s[1..])
  }

  function Escape(s: string): (r: string)
    ensures !NeedsQuotes(s) ==> r == s
    ensures NeedsQuotes(s) ==> |r| >= 2 && r[0] == '"' && r[|r| - 1] == '"'
  {
    if NeedsQuotes(s) then "\"" + Doubled(s) + "\"" else s
  }

  function EscapeAll(xs: seq<string>): (r: seq<string>)
    ensures |r| == |xs| && forall i :: 0 <= i < |xs| ==> r[i] == Escape(xs[i])
  {
    if xs == [] then [] else [Escape(xs[0])] + EscapeAll(xs[1..])
  }

  /** One record: its fields escaped and joined by commas. */
  function Line(fields: seq<string>): string {
    Join(EscapeAll(fields), ",")
  }

  function LinesOf(rows: seq<seq<string>>): (r: seq<string>)
    ensures |r| == |rows| && forall i :: 0 <= i < |rows| ==> r[i] == Line(rows[i])
  {
    if rows == [] then [] else [Line(rows[0])] + LinesOf(rows[1..])
  }

  /** The whole text: the records joined by line feeds, with no line break after the last. */
  function Document(rows: seq<seq<string>>): string {
    Join(LinesOf(rows), "\n")
  }

  // ---------------------------------------------------------------- decoding

  /** An unquoted field runs up to the next comma or line feed. */
  function Unquoted(s: string): (r: (string, string))
    ensures |r.1| <= |s|
    decreases |s|
  {
    if s == [] || s[0] == ',' || s[0] == '\n' then ("", s)
    else
      var (f, rest) := Unquoted(s[1..]);
      ([s[0]] + f, rest)
  }

  /** The rest of a quoted field, after its opening quote; None when the closing quote is missing. */
  function Quoted(s: string): (r: Option<(string, string)>)
    ensures r.Some? ==> |r.value.1| < |s|
    decreases |s|
  {
    if s == [] then None
    else if s[0] == '"' then
      if |s| > 1 && s[1] == '"' then
        match Quoted(s[2..])
        case None => None
        case Some((f, rest)) => Some(("\"" + f, rest))
      else Some(("", s[1..]))
    else
      match Quoted(s[1..])
      case None => None
      case Some((f, rest)) => Some(([s[0]] + f, rest))
  }

  function Field(s: string): (r: Option<(string, string)>)
    ensures r.Some? ==> |r.value.1| <= |s|
  {
    if s != [] && s[0] == '"' then Quoted(s[1..]) else Some(Unquoted(s))
  }

  /** The fields of one record, and the text after it. */
  function Record(s: string): (r: Option<(seq<string>, string)>)
    ensures r.Some? ==> |r.value.1| <= |s|
    decreases |s|
  {
    match Field(s)
    case None => None
    case Some((f, rest)) =>
      if rest != [] && rest[0] == ',' then
        match Record(rest[1..])
        case None => None
        case Some((fs, after)) => Some(([f] + fs, after))
      else Some(([f], rest))
  }

  /** Every record of the text; None when the text is not well formed. */
  function Records(s: string): Option<seq<seq<string>>>
    decreases |s|
  {
    match Record(s)
    case None => None
    case Some((fs, rest)) =>
      if rest == [] then Some([fs])
      else if rest[0] == '\n' then
        match Records(rest[1..])
        case None => None
        case Some(more) => Some([fs] + more)
      else None
  }

  // ---------------------------------------------------------------- round trip

  /** Text that can follow a field: nothing, a comma or a line feed. */
  predicate Boundary(t: string) {
    t == [] || t[0] == ',' || t[0] == '\n'
  }

  function Prepend(prefix: string, r: Option<(string, string)>): Option<(string, string)> {
    match r
    case None => None
    case Some((f, rest)) => Some((prefix + f, rest))
  }

  lemma QuotedPlainChar(c: char, u: string)
    requires c != '"'
    ensures Quoted([c] + u) == Prepend([c], Quoted(u))
  {
    assert ([c] + u)[1..] == u;
  }

  lemma QuotedPair(u: string)
    ensures Quoted("\"\"" + u) == Prepend("\"", Quoted(u))
  {
    assert ("\"\"" + u)[2..] == u;
  }

  lemma {:induction false} QuotedDoubled(x: string, t: string)
    requires Boundary(t)
    ensures Quoted(Doubled(x) + "\"" + t) == Some((x, t))
    decreases |x|
  {
    if x == [] {
      assert Doubled(x) + "\"" + t == ['"'] + t;
    } else {
      QuotedDoubled(x[1..], t);
      QuotedDoubledStep(x, t);
    }
  }

  /** One more character in front of a doubled field: it is read back first. */
  lemma QuotedDoubledStep(x: string, t: string)
    requires x != [] && Quoted(Doubled(x[1..]) + "\"" + t) == Some((x[1..], t))
    ensures Quoted(Doubled(x) + "\"" + t) == Some((x, t))
  {
    var u := Doubled(x[1..]) + "\"" + t;
    var head := if x[0] == '"' then "\"\"" else [x[0]];
    assert Doubled(x) == head + Doubled(x[1..]);
    assert Doubled(x) + "\"" + t == head + u;
    if x[0] == '"' {
      QuotedPair(u);
    } else {
      QuotedPlainChar(x[0], u);
    }
    assert [x[0]] + x[1..] == x;
  }

  lemma {:induction false} UnquotedPlain(x: string, t: string)
    requires ',' !in x && '\n' !in x && Boundary(t)
    ensures Unquoted(x + t) == (x, t)
    decreases |x|
  {
    if x == [] {
      assert x + t == t;
    } else {
      assert (x + t)[1..] == x[1..] + t;
      UnquotedPlain(x[1..], t);
      assert [x[0]] + x[1..] == x;
    }
  }

  /** An escaped field reads back as the original, leaving what follows it. */
  lemma FieldEscape(x: string, t: string)
    requires Boundary(t)
    ensures Field(Escape(x) + t) == Some((x, t))
  {
    if NeedsQuotes(x) {
      FieldQuoted(x, t);
    } else {
      FieldPlain(x, t);
    }
  }

  lemma FieldQuoted(x: string, t: string)
    requires Boundary(t) && NeedsQuotes(x)
    ensures Field(Escape(x) + t) == Some((x, t))
  {
    var e := Escape(x) + t;
    assert e == "\"" + (Doubled(x) + "\"" + t);
    QuotedDoubled(x, t);
  }

  lemma FieldPlain(x: string, t: string)
    requires Boundary(t) && !NeedsQuotes(x)
    ensures Field(Escape(x) + t) == Some((x, t))
  {
    UnquotedPlain(x, t);
    if x != [] {
      assert (x + t)[0] == x[0];
    }
  }

  /** A line reads back as its fields, leaving what follows it. */
  lemma {:induction false} RecordLine(xs: seq<string>, t: string)
    requires |xs| >= 1 && (t == [] || t[0] == '\n')
    ensures Record(Line(xs) + t) == Some((xs, t))
    decreases |xs|
  {
    var es := EscapeAll(xs);
    if |xs| == 1 {
      assert Line(xs) == Escape(xs[0]);
      FieldEscape(xs[0], t);
      assert xs == [xs[0]];
    } else {
      var tail := Line(xs[1..]) + t;
      assert EscapeAll(xs[1..]) == es[1..];
      assert Line(xs) == Escape(xs[0]) + "," + Line(xs[1..]);
      assert Line(xs) + t == Escape(xs[0]) + ("," + tail);
      FieldEscape(xs[0], "," + tail);
      assert ("," + tail)[1..] == tail;
      RecordLine(xs[1..], t);
      assert [xs[0]] + xs[1..] == xs;
    }
  }

  /** The text of two or more records: the first line, a line feed and the text of the rest. */
  lemma DocumentCons(rows: seq<seq<string>>)
    requires |rows| >= 2
    ensures Document(rows) == Line(rows[0]) + ("\n" + Document(rows[1..]))
  {
    var ls := LinesOf(rows);
    assert LinesOf(rows[1..]) == ls[1..];
  }

  lemma RecordsNext(s: string, fs: seq<string>, tail: string, more: seq<seq<string>>)
    requires Record(s) == Some((fs, "\n" + tail)) && Records(tail) == Some(more)
    ensures Records(s) == Some([fs] + more)
  {
    assert ("\n" + tail)[1..] == tail;
  }

  /** The whole text reads back as its records, when each record has at least one field. */
  lemma {:induction false} RoundTrip(rows: seq<seq<string>>)
    requires |rows| >= 1 && forall i :: 0 <= i < |rows| ==> |rows[i]| >= 1
    ensures Records(Document(rows)) == Some(rows)
    decreases |rows|
  {
    if |rows| == 1 {
      assert Document(rows) == Line(rows[0]) + "";
      RecordLine(rows[0], "");
      assert rows == [rows[0]];
    } else {
      var tail := Document(rows[1..]);
      DocumentCons(rows);
      RecordLine(rows[0], "\n" + tail);
      RoundTrip(rows[1..]);
      RecordsNext(Document(rows), rows[0], tail, rows[1..]);
      assert [rows[0]] + rows[1..] == rows;
    }
  }
}
