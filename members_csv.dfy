/**
 * The roster script: every current legislator becomes one CSV row (BioGuide ID, display
 * name, state, district, party code, FEC IDs); rows without a state are dropped, House rows
 * come first ordered by state and district, then Senate rows ordered by state.
 */
module MembersCsv {
  import opened Wrappers
  import opened Text
  import opened Legislators
  import Csv

  /** `normalizeParty`: a known prefix, case-insensitively, becomes its one-letter code. */
  function NormalizeParty(p: Option<string>): (r: string)
    ensures p.None? || p.value == "" ==> r == ""
    ensures p.Some? && StartsWith(Lower(p.value), "dem") ==> r == "D"
    ensures p.Some? && !StartsWith(Lower(p.value), "dem") && StartsWith(Lower(p.value), "rep") ==> r == "R"
    ensures (p.Some? && !StartsWith(Lower(p.value), "dem") && !StartsWith(Lower(p.value), "rep")
             && StartsWith(Lower(p.value), "ind")) ==> r == "I"
    ensures (p.Some? && p.value != "" && !StartsWith(Lower(p.value), "dem") && !StartsWith(Lower(p.value), "rep")
             && !StartsWith(Lower(p.value), "ind")) ==> r == p.value
  {
    if p.None? || p.value == "" then ""
    else
      var s := Lower(p.value);
      if StartsWith(s, "dem") then "D"
      else if StartsWith(s, "rep") then "R"
      else if StartsWith(s, "ind") then "I"
      else p.value
  }

  function Truthy(s: Option<string>): bool {
    s.Some? && s.value != ""
  }

  /** `[first, middle, last, suffix].filter(Boolean)`. */
  function Parts(n: NameBlock): (r: seq<string>)
    ensures forall i :: 0 <= i < |r| ==> r[i] != ""
  {
    (if Truthy(n.first) then [n.first.value] else [])
    + (if Truthy(n.middle) then [n.middle.value] else [])
    + (if Truthy(n.last) then [n.last.value] else [])
    + (if Truthy(n.suffix) then [n.suffix.value] else [])
  }

  /** `formatName`: the official full name, else the name parts joined by spaces, else "Unknown". */
  function FormatName(name: Option<NameBlock>): (r: string)
    ensures r != ""
    ensures name.Some? && Truthy(name.value.officialFull) ==> r == name.value.officialFull.value
    ensures name.None? ==> r == "Unknown"
    ensures name.Some? && !Truthy(name.value.officialFull) && Parts(name.value) == [] ==> r == "Unknown"
  {
    match name
    case None => "Unknown"
    case Some(n) =>
      if Truthy(n.officialFull) then n.officialFull.value
      else
        var parts := Join(Parts(n), " ");
        if parts == "" then "Unknown" else parts
  }

  /** `fec_ids`: a list as given, a non-empty scalar as a one-element list, otherwise none. */
  function FecIds(fec: Option<FecField>): (r: seq<string>)
    ensures fec.None? ==> r == []
    ensures fec.Some? && fec.value.FecList? ==> r == fec.value.ids
    ensures fec.Some? && fec.value.FecScalar? ==> r == (if fec.value.id != "" then [fec.value.id] else [])
  {
    match fec
    case None => []
    case Some(FecList(ids)) => ids
    case Some(FecScalar(id)) => if id != "" then [id] else []
  }

  /** One roster row; `district` is None for the blank district. */
  datatype Row = Row(bioguideId: string, name: string, state: string, district: Option<int>, party: string, fecIds: string)

  /** The identifier block the script reads (see the finding on `ids`). */
  datatype Ids = Ids(bioguide: Option<string>, fec: Option<FecField>)

  function RowFrom(ids: Option<Ids>, leg: Person): (r: Row)
    ensures r.name == FormatName(leg.name)
    ensures r.state == (if LastTerm(leg).Some? then LastTerm(leg).value.state.GetOr("") else "")
    ensures r.district.Some? <==>
      (LastTerm(leg).Some? && LastTerm(leg).value.termType == Some("rep") && LastTerm(leg).value.district.Some?)
    ensures r.district.Some? ==> r.district == LastTerm(leg).value.district
    ensures r.party == (if LastTerm(leg).Some? then NormalizeParty(LastTerm(leg).value.party) else "")
  {
    var latest := LastTerm(leg);
    var bioguide := match ids case Some(i) => i.bioguide.GetOr("") case None => "";
    var fec := match ids case Some(i) => FecIds(i.fec) case None => [];
    var state := match latest case Some(t) => t.state.GetOr("") case None => "";
    var district := match latest case Some(t) => if t.termType == Some("rep") then t.district else None case None => None;
    var party := match latest case Some(t) => NormalizeParty(t.party) case None => "";
    Row(bioguide, FormatName(leg.name), state, district, party, Join(fec, ","))
  }

  /** The row the script builds as written: it reads `leg.ids`, a key the legislator data does not have. */
  function RowAsWritten(leg: Person): Row {
    RowFrom(None, leg)
  }

  /** The row the script evidently means, reading the `id` block. */
  function RowOf(leg: Person): (r: Row)
    ensures r.bioguideId == Bioguide(leg).GetOr("")
    ensures r.fecIds == Join(FecIds(FecOf(leg)), ",")
  {
    match leg.id
    case None => RowFrom(None, leg)
    case Some(i) => RowFrom(Some(Ids(i.bioguide, i.fec)), leg)
  }

  /** As written, every row loses its BioGuide ID and FEC IDs, whatever the entry holds. */
  lemma AsWrittenLosesIds(leg: Person)
    requires Bioguide(leg).Some? && Bioguide(leg).value != ""
    ensures RowAsWritten(leg).bioguideId == "" && RowAsWritten(leg).fecIds == ""
    ensures RowOf(leg).bioguideId == Bioguide(leg).value
  {
  }

  /** A concrete entry, as the legislator data lists one, loses "A000360" as written. */
  lemma AsWrittenExample()
    ensures RowAsWritten(Senator()) == Row("", "Unknown", "TN", None, "R", "")
  {
    RepublicanIsR();
  }

  lemma CorrectedExample()
    ensures RowOf(Senator()) == Row("A000360", "Unknown", "TN", None, "R", "S2TN00058")
  {
    RepublicanIsR();
  }

  function Senator(): Person {
    Person(Some(IdBlock(Some("A000360"), None, None, Some(FecList(["S2TN00058"])))), None,
           Some([Term(Some("sen"), Some("Republican"), Some("TN"), None)]))
  }

  lemma RepublicanIsR()
    ensures NormalizeParty(Some("Republican")) == "R"
  {
    var l := Lower("Republican");
    assert l[0] == LowerChar('R') == 'r' && l[1] == 'e' && l[2] == 'p';
    assert l[..3] == "rep";
  }

  // ---------------------------------------------------------------- filter and order

  function Rows(data: seq<Person>): (r: seq<Row>)
    ensures |r| == |data| && forall i :: 0 <= i < |data| ==> r[i] == RowOf(data[i])
  {
    if data == [] then [] else [RowOf(data[0])] + Rows(data[1..])
  }

  /** `rows.filter((r) => r.state)`. */
  function Current(rows: seq<Row>): (r: seq<Row>)
    ensures forall i :: 0 <= i < |r| ==> r[i].state != ""
    ensures forall x :: x in r <==> x in rows && x.state != ""
  {
    if rows == [] then []
    else (if rows[0].state != "" then [rows[0]] else []) + Current(rows[1..])
  }

  /** The House rows (a district) when `house`, else the Senate rows (a blank district). */
  function Chamber(rows: seq<Row>, house: bool): (r: seq<Row>)
    ensures forall i :: 0 <= i < |r| ==> r[i].district.Some? == house
    ensures forall x :: x in r ==> x in rows
  {
    if rows == [] then []
    else (if rows[0].district.Some? == house then [rows[0]] else []) + Chamber(rows[1..], house)
  }

  /** `Number(district || 0)`. */
  function DistrictNumber(r: Row): int {
    r.district.GetOr(0)
  }

  /** The House comparator: by state, then by district number. */
  predicate HouseBefore(a: Row, b: Row) {
    if a.state == b.state then DistrictNumber(a) < DistrictNumber(b) else Less(a.state, b.state)
  }

  predicate SenateBefore(a: Row, b: Row) {
    a.state != b.state && Less(a.state, b.state)
  }

  /** The comparator of the given kind. */
  predicate Before(house: bool, a: Row, b: Row) {
    if house then HouseBefore(a, b) else SenateBefore(a, b)
  }

  /** Nothing later comes strictly before anything earlier. */
  predicate Ordered(house: bool, s: seq<Row>) {
    forall i, j :: 0 <= i < j < |s| ==> !Before(house, s[j], s[i])
  }

  /** Insertion after every element not after `x`, as a stable sort places it. */
  function Insert(house: bool, x: Row, s: seq<Row>): (r: seq<Row>)
    ensures |r| == |s| + 1
    ensures multiset(r) == multiset(s) + multiset{x}
  {
    if s == [] then [x]
    else if Before(house, x, s[0]) then [x] + s
    else
      assert s == [s[0]] + s[1..];
      [s[0]] + Insert(house, x, s[1..])
  }

  /** A stable sort (`Array.prototype.sort` is stable). */
  function Sort(house: bool, s: seq<Row>): (r: seq<Row>)
    ensures |r| == |s|
    ensures multiset(r) == multiset(s)
  {
    if s == [] then []
    else
      assert s == s[..|s| - 1] + [s[|s| - 1]];
      Insert(house, s[|s| - 1], Sort(house, s[..|s| - 1]))
  }

  /** The comparators order rows consistently: "not after" is total and transitive. */
  lemma NotBeforeTransitive(house: bool, a: Row, b: Row, c: Row)
    requires !Before(house, b, a) && !Before(house, c, b)
    ensures !Before(house, c, a)
  {
    if a.state != b.state { LessTotal(a.state, b.state); }
    if b.state != c.state { LessTotal(b.state, c.state); }
    if a.state != c.state {
      LessTotal(a.state, c.state);
      if Less(c.state, a.state) {
        if a.state == b.state {
        } else if b.state == c.state {
        } else {
          LessTransitive(a.state, b.state, c.state);
          LessIrreflexive(a.state);
          if Less(c.state, a.state) { LessTransitive(a.state, c.state, a.state); }
        }
      }
    }
  }

  lemma NotBeforeEither(house: bool, a: Row, b: Row)
    ensures !Before(house, a, b) || !Before(house, b, a)
  {
    if Before(house, a, b) && Before(house, b, a) && a.state != b.state {
      LessTransitive(a.state, b.state, a.state);
      LessIrreflexive(a.state);
    }
  }

  lemma {:induction false} InsertOrdered(house: bool, x: Row, s: seq<Row>)
    requires Ordered(house, s)
    ensures Ordered(house, Insert(house, x, s))
    decreases |s|
  {
    if s == [] {
    } else if Before(house, x, s[0]) {
      InsertFront(house, x, s);
    } else {
      InsertOrdered(house, x, s[1..]);
      InsertLater(house, x, s);
    }
  }

  /** `x` goes in front of a list whose first element comes after it. */
  lemma InsertFront(house: bool, x: Row, s: seq<Row>)
    requires Ordered(house, s) && s != [] && Before(house, x, s[0])
    ensures Ordered(house, [x] + s)
  {
    var r := [x] + s;
    forall i, j | 0 <= i < j < |r| ensures !Before(house, r[j], r[i]) {
      if i == 0 {
        NotBeforeEither(house, x, s[0]);
        if j > 1 {
          NotBeforeTransitive(house, x, s[0], s[j - 1]);
        }
      }
    }
  }

  /** Every element after insertion is `x` or was already there. */
  lemma InsertFrom(house: bool, x: Row, s: seq<Row>, k: nat)
    requires k < |Insert(house, x, s)|
    ensures Insert(house, x, s)[k] == x || Insert(house, x, s)[k] in s
  {
    var r := Insert(house, x, s);
    assert r[k] in multiset(r);
  }

  /** `x` goes after a first element it does not come before. */
  lemma InsertLater(house: bool, x: Row, s: seq<Row>)
    requires Ordered(house, s) && s != [] && !Before(house, x, s[0])
    requires Ordered(house, Insert(house, x, s[1..]))
    ensures Ordered(house, [s[0]] + Insert(house, x, s[1..]))
  {
    var rest := Insert(house, x, s[1..]);
    forall k | 0 <= k < |rest| ensures !Before(house, rest[k], s[0]) {
      InsertFrom(house, x, s[1..], k);
      if rest[k] != x {
        HeadFirst(house, s, rest[k]);
      }
    }
    Cons(house, s[0], rest);
  }

  /** Nothing in an ordered list comes before its head. */
  lemma HeadFirst(house: bool, s: seq<Row>, y: Row)
    requires Ordered(house, s) && s != [] && y in s
    ensures !Before(house, y, s[0])
  {
    var m :| 0 <= m < |s| && s[m] == y;
  }

  lemma Cons(house: bool, a: Row, rest: seq<Row>)
    requires Ordered(house, rest)
    requires forall k :: 0 <= k < |rest| ==> !Before(house, rest[k], a)
    ensures Ordered(house, [a] + rest)
  {
    var r := [a] + rest;
    forall i, j | 0 <= i < j < |r| ensures !Before(house, r[j], r[i]) {
      assert r[j] == rest[j - 1];
      if i > 0 {
        assert r[i] == rest[i - 1];
      }
    }
  }

  lemma {:induction false} SortOrdered(house: bool, s: seq<Row>)
    ensures Ordered(house, Sort(house, s))
    decreases |s|
  {
    if s != [] {
      SortOrdered(house, s[..|s| - 1]);
      InsertOrdered(house, s[|s| - 1], Sort(house, s[..|s| - 1]));
    }
  }

  // ---------------------------------------------------------------- output

  const Header: seq<string> := ["bioguide_id", "name", "state", "district", "party", "fec_ids"]

  /** The six cells of a row: `String()` of each value, the blank district as "". */
  function Cells(r: Row): (c: seq<string>)
    ensures |c| == 6
  {
    [r.bioguideId, r.name, r.state, match r.district case Some(d) => IntToString(d) case None => "", r.party, r.fecIds]
  }

  function CellsOf(rows: seq<Row>): (c: seq<seq<string>>)
    ensures |c| == |rows| && forall i :: 0 <= i < |rows| ==> c[i] == Cells(rows[i])
  {
    if rows == [] then [] else [Cells(rows[0])] + CellsOf(rows[1..])
  }

  /** The roster in output order: House rows, then Senate rows, of the rows that have a state. */
  function Roster(data: seq<Person>): seq<Row> {
    Arrange(Current(Rows(data)))
  }

  /** House rows sorted, then Senate rows sorted. */
  function Arrange(current: seq<Row>): seq<Row> {
    Sort(true, Chamber(current, true)) + Sort(false, Chamber(current, false))
  }

  /** The file written: the header line, then one line per roster row, joined by line feeds. */
  function MembersCsv(data: seq<Person>): string {
    Csv.Document([Header] + CellsOf(Roster(data)))
  }

  /** The fetched YAML: a failed download, a document that is not a list, or the legislators. */
  datatype Download = NotOk(status: int, body: string) | NotAList | Legislators(entries: seq<Person>)

  function Build(d: Download): (r: Result<string, string>)
    ensures r.Success? <==> d.Legislators?
    ensures r.Success? ==> r.value == MembersCsv(d.entries)
  {
    match d
    case NotOk(status, body) => Failure("Failed to fetch legislators-current.yaml: " + IntToString(status) + "\n" + body)
    case NotAList => Failure("Unexpected YAML format (expected top-level array).")
    case Legislators(entries) => Success(MembersCsv(entries))
  }

  /** Every row of a sorted selection was selected, and comes from the rows selected from. */
  /** Every row is a House row (`house`) or every row a Senate row. */
  predicate AllOf(s: seq<Row>, house: bool) {
    forall i :: 0 <= i < |s| ==> s[i].district.Some? == house
  }

  lemma SortChamber(rows: seq<Row>, house: bool)
    ensures AllOf(Sort(house, Chamber(rows, house)), house)
  {
    var f := Chamber(rows, house);
    var s := Sort(house, f);
    forall i | 0 <= i < |s| ensures s[i].district.Some? == house {
      assert s[i] in multiset(f);
    }
  }

  /** The first `h` rows are House rows in House order, the rest Senate rows in Senate order. */
  predicate HouseThenSenate(r: seq<Row>, h: nat) {
    && h <= |r|
    && AllOf(r[..h], true) && AllOf(r[h..], false)
    && Ordered(true, r[..h]) && Ordered(false, r[h..])
  }

  /** Arranging keeps every row, once. */
  lemma ArrangeKeeps(current: seq<Row>)
    ensures multiset(Arrange(current)) == multiset(current)
  {
    SplitByDistrict(current);
  }

  /** Arranging puts the House rows, in House order, before the Senate rows, in Senate order. */
  lemma ArrangeOrder(current: seq<Row>)
    ensures HouseThenSenate(Arrange(current), |Chamber(current, true)|)
  {
    var sh, ss := Sort(true, Chamber(current, true)), Sort(false, Chamber(current, false));
    SortOrdered(true, Chamber(current, true));
    SortOrdered(false, Chamber(current, false));
    SortChamber(current, true);
    SortChamber(current, false);
    Concatenated(sh, ss);
  }

  lemma Concatenated(sh: seq<Row>, ss: seq<Row>)
    requires AllOf(sh, true) && AllOf(ss, false)
    requires Ordered(true, sh) && Ordered(false, ss)
    ensures HouseThenSenate(sh + ss, |sh|)
  {
    var r := sh + ss;
    assert r[..|sh|] == sh && r[|sh|..] == ss;
  }

  /**
   * The roster holds exactly the rows with a state, each once per entry; House rows come
   * first in (state, district) order, then Senate rows in state order.
   */
  lemma RosterSpec(data: seq<Person>)
    ensures forall i :: 0 <= i < |Roster(data)| ==> Roster(data)[i].state != ""
    ensures multiset(Roster(data)) == multiset(Current(Rows(data)))
    ensures exists h :: HouseThenSenate(Roster(data), h)
  {
    var current := Current(Rows(data));
    ArrangeKeeps(current);
    ArrangeOrder(current);
    var r := Arrange(current);
    forall i | 0 <= i < |r| ensures r[i].state != "" {
      assert r[i] in multiset(current);
    }
  }

  lemma {:induction false} SplitByDistrict(rows: seq<Row>)
    ensures multiset(Chamber(rows, true)) + multiset(Chamber(rows, false)) == multiset(rows)
    decreases |rows|
  {
    if rows != [] {
      SplitByDistrict(rows[1..]);
      assert rows == [rows[0]] + rows[1..];
    }
  }

  /** The file reads back, record by record, as the header and the roster's cells. */
  lemma CsvReadsBack(data: seq<Person>)
    ensures Csv.Records(MembersCsv(data)) == Some([Header] + CellsOf(Roster(data)))
  {
    var rows := [Header] + CellsOf(Roster(data));
    forall i | 0 <= i < |rows| ensures |rows[i]| >= 1 {
      if i > 0 { assert rows[i] == CellsOf(Roster(data))[i - 1]; }
    }
    Csv.RoundTrip(rows);
  }
}
