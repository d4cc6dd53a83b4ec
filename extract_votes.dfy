/**
 * Roll-call vote extraction: each JSON or XML file gives one vote row and the member records
 * of that vote; the rows of all files are concatenated, XML files first.
 */
module ExtractVotes {
  import opened Wrappers

  /** The vote table row shared by both formats. */
  datatype VoteRow = VoteRow(voteId: string, chamber: Option<string>, congress: Option<string>, session: Option<string>,
                             rollnumber: Option<string>, date: Option<string>, question: Option<string>,
                             result: Option<string>, billId: Option<string>)

  datatype RecordRow = RecordRow(voteId: string, bioguide: Option<string>, position: Option<string>)

  /** A member record of a JSON vote; None is a missing key. */
  datatype JsonRecord = JsonRecord(id: Option<string>, vote: Option<string>)

  /** A JSON vote object; None is a missing key. */
  datatype JsonVote = JsonVote(voteId: Option<string>, chamber: Option<string>, congress: Option<string>, session: Option<string>,
                               rollnumber: Option<string>, date: Option<string>, question: Option<string>,
                               result: Option<string>, bill: Option<string>, records: Option<seq<JsonRecord>>)

  /**
   * A `record` element: the text of its first `id` and `vote` children, None when there is no
   * such child and "" when the child is empty.
   */
  datatype XmlRecord = XmlRecord(id: Option<string>, vote: Option<string>)

  /**
   * The root of a vote XML document: the text of its first child of each name, and the `record`
   * children of each of its `records` children, in document order.
   */
  datatype XmlVote = XmlVote(voteId: Option<string>, chamber: Option<string>, congress: Option<string>, session: Option<string>,
                             rollnumber: Option<string>, date: Option<string>, question: Option<string>,
                             result: Option<string>, bill: Option<string>, records: seq<seq<XmlRecord>>)

  /** What a file holds; a file that is neither is unreadable by both parsers. */
  datatype Document = JsonText(json: JsonVote) | XmlText(xml: XmlVote) | Garbage

  datatype VoteFile = VoteFile(name: string, content: Document)

  datatype Parsed = Parsed(vote: VoteRow, records: seq<RecordRow>)

  /** The name's final suffix as `pathlib` computes it: from the last dot, unless that dot starts or ends the name. */
  function Suffix(name: string): (r: string)
    ensures r == "" || (r[0] == '.' && |r| >= 2 && |r| < |name| && name[|name| - |r|..] == r && '.' !in r[1..])
    decreases |name|
  {
    LastDotSuffix(name, |name|)
  }

  function LastDotSuffix(name: string, i: nat): (r: string)
    requires i <= |name| && '.' !in name[i..]
    ensures r == "" || (r[0] == '.' && |r| >= 2 && |r| < |name| && name[|name| - |r|..] == r && '.' !in r[1..])
    decreases i
  {
    if i == 0 then ""
    else if name[i - 1] == '.' then
      if i - 1 == 0 || i == |name| then "" else name[i - 1..]
    else
      assert name[i - 1..] == [name[i - 1]] + name[i..];
      LastDotSuffix(name, i - 1)
  }

  // ---------------------------------------------------------------- JSON

  function JsonRecordRow(voteId: string, r: JsonRecord): Result<RecordRow, string> {
    if r.id.None? then Failure("record without id")
    else if r.vote.None? then Failure("record without vote")
    else Success(RecordRow(voteId, r.id, r.vote))
  }

  /** The records comprehension of `_from_json`. */
  function JsonRecords(voteId: string, rs: seq<JsonRecord>): (r: Result<seq<RecordRow>, string>)
    ensures r.Success? <==> forall i :: 0 <= i < |rs| ==> rs[i].id.Some? && rs[i].vote.Some?
    ensures r.Success? ==> (|r.value| == |rs|
      && forall i :: 0 <= i < |rs| ==> r.value[i] == RecordRow(voteId, rs[i].id, rs[i].vote))
    decreases |rs|
  {
    if rs == [] then Success([])
    else
      var rest := JsonRecords(voteId, rs[1..]);
      assert forall i :: 1 <= i < |rs| ==> rs[i] == rs[1..][i - 1];
      match JsonRecordRow(voteId, rs[0])
      case Failure(e) => Failure(e)
      case Success(row) =>
        match rest
        case Failure(e) => Failure(e)
        case Success(rows) => Success([row] + rows)
  }

  /**
   * `_from_json`: the vote row, with the bill read from key "bill", and one record per entry of
   * "records" (none when the key is missing), each tagged with the vote's ID.
   */
  function FromJson(data: JsonVote): (r: Result<Parsed, string>)
    ensures r.Failure? <==> data.voteId.None? || exists i :: (0 <= i < |data.records.GetOr([])|
      && (data.records.GetOr([])[i].id.None? || data.records.GetOr([])[i].vote.None?))
    ensures r.Success? ==> r.value.vote == VoteRow(data.voteId.value, data.chamber, data.congress, data.session,
                                                   data.rollnumber, data.date, data.question, data.result, data.bill)
    ensures r.Success? ==> (|r.value.records| == |data.records.GetOr([])|
      && forall i :: 0 <= i < |r.value.records| ==> r.value.records[i].voteId == data.voteId.value)
  {
    if data.voteId.None? then Failure("vote without vote_id")
    else
      var voteId := data.voteId.value;
      var row := VoteRow(voteId, data.chamber, data.congress, data.session, data.rollnumber, data.date,
                         data.question, data.result, data.bill);
      var records :- JsonRecords(voteId, data.records.GetOr([]));
      Success(Parsed(row, records))
  }

  // ---------------------------------------------------------------- XML

  /** The vote ID of an XML vote: the `vote_id` text, or "unknown" when it is missing or empty. */
  function XmlVoteId(root: XmlVote): (r: string)
    ensures r == "unknown" <==> root.voteId.None? || root.voteId.value == "" || root.voteId.value == "unknown"
    ensures r != ""
  {
    if root.voteId.Some? && root.voteId.value != "" then root.voteId.value else "unknown"
  }

  /** `records/record`: the record elements of every `records` child, in document order. */
  function Flatten(blocks: seq<seq<XmlRecord>>): seq<XmlRecord>
    decreases |blocks|
  {
    if blocks == [] then [] else blocks[0] + Flatten(blocks[1..])
  }

  lemma {:induction false} FlattenAppend(a: seq<seq<XmlRecord>>, b: seq<seq<XmlRecord>>)
    ensures Flatten(a + b) == Flatten(a) + Flatten(b)
    decreases |a|
  {
    if a == [] {
      assert a + b == b;
    } else {
      assert (a + b)[1..] == a[1..] + b;
      FlattenAppend(a[1..], b);
    }
  }

  /** `_from_xml`: the vote row, then one record per `records/record` element appended in a loop. */
  method FromXml(root: XmlVote) returns (r: Parsed)
    ensures r.vote == VoteRow(XmlVoteId(root), root.chamber, root.congress, root.session, root.rollnumber,
                              root.date, root.question, root.result, root.bill)
    ensures |r.records| == |Flatten(root.records)|
    ensures forall i :: 0 <= i < |r.records| ==>
      r.records[i] == RecordRow(XmlVoteId(root), Flatten(root.records)[i].id, Flatten(root.records)[i].vote)
  {
    var voteId := XmlVoteId(root);
    var row := VoteRow(voteId, root.chamber, root.congress, root.session, root.rollnumber, root.date,
                       root.question, root.result, root.bill);
    var elements := Flatten(root.records);
    var records: seq<RecordRow> := [];
    for i := 0 to |elements|
      invariant |records| == i
      invariant forall j :: 0 <= j < i ==> records[j] == RecordRow(voteId, elements[j].id, elements[j].vote)
    {
      records := records + [RecordRow(voteId, elements[i].id, elements[i].vote)];
    }
    r := Parsed(row, records);
  }

  /** The value `FromXml` computes. */
  function XmlParsed(root: XmlVote): Parsed {
    var voteId := XmlVoteId(root);
    Parsed(VoteRow(voteId, root.chamber, root.congress, root.session, root.rollnumber, root.date,
                   root.question, root.result, root.bill),
           seq(|Flatten(root.records)|, i requires 0 <= i < |Flatten(root.records)| =>
             RecordRow(voteId, Flatten(root.records)[i].id, Flatten(root.records)[i].vote)))
  }

  // ---------------------------------------------------------------- files

  predicate IsJsonName(name: string) {
    Suffix(name) == ".json"
  }

  lemma {:induction false} SuffixScan(stem: string, ext: string, i: nat)
    requires '.' !in ext && |stem| < i <= |stem| + 1 + |ext|
    ensures var name := stem + "." + ext;
      '.' !in name[i..] && LastDotSuffix(name, i) == if stem == [] || ext == [] then "" else "." + ext
    decreases i
  {
    var name := stem + "." + ext;
    assert name[i..] == ext[i - |stem| - 1..];
    if i > |stem| + 1 {
      assert name[i - 1] == ext[i - |stem| - 2];
      SuffixScan(stem, ext, i - 1);
    } else {
      assert name[|stem|..] == "." + ext;
    }
  }

  /** The suffix is the part from the last dot when there is a non-empty name before it and a non-empty part after it. */
  lemma SuffixOf(stem: string, ext: string)
    requires '.' !in ext
    ensures Suffix(stem + "." + ext) == if stem == [] || ext == [] then "" else "." + ext
  {
    SuffixScan(stem, ext, |stem| + 1 + |ext|);
  }

  /** A ".json" file name selects JSON. */
  lemma JsonName(stem: string)
    requires stem != []
    ensures IsJsonName(stem + "." + "json")
  {
    SuffixOf(stem, "json");
  }

  /** Capitals do not select JSON. */
  lemma CapitalJsonNameIsXml(stem: string)
    requires stem != []
    ensures !IsJsonName(stem + "." + "JSON")
  {
    SuffixOf(stem, "JSON");
    assert ("." + "JSON")[1] != ".json"[1];
  }

  /** A file named just ".json" has no suffix, so it is parsed as XML. */
  lemma DotJsonIsXml()
    ensures !IsJsonName(".json")
  {
    SuffixOf("", "json");
    assert "" + "." + "json" == ".json";
  }

  /** `parse_file`: the ".json" suffix selects the JSON parser, any other name the XML parser. */
  function ParseFile(f: VoteFile): (r: Result<Parsed, string>)
    ensures IsJsonName(f.name) && r.Success? ==> f.content.JsonText? && r == FromJson(f.content.json)
    ensures !IsJsonName(f.name) && r.Success? ==> f.content.XmlText? && r.value == XmlParsed(f.content.xml)
    ensures !IsJsonName(f.name) && f.content.XmlText? ==> r.Success?
  {
    if IsJsonName(f.name) then
      match f.content
      case JsonText(data) => FromJson(data)
      case _ => Failure("not a JSON document")
    else
      match f.content
      case XmlText(root) => Success(XmlParsed(root))
      case _ => Failure("not an XML document")
  }

  method ParseFileMethod(f: VoteFile) returns (r: Result<Parsed, string>)
    ensures r == ParseFile(f)
  {
    if IsJsonName(f.name) {
      if f.content.JsonText? {
        r := FromJson(f.content.json);
      } else {
        r := Failure("not a JSON document");
      }
    } else if f.content.XmlText? {
      var p := FromXml(f.content.xml);
      assert p.records == XmlParsed(f.content.xml).records;
      r := Success(p);
    } else {
      r := Failure("not an XML document");
    }
  }

  /** The tables parsed from `files[i..]`, appended to those already gathered. */
  function ParseFrom(files: seq<VoteFile>, i: nat, votes: seq<VoteRow>, records: seq<RecordRow>)
    : Result<(seq<VoteRow>, seq<RecordRow>), string>
    requires i <= |files|
    decreases |files| - i
  {
    if i == |files| then Success((votes, records))
    else match ParseFile(files[i])
      case Failure(e) => Failure(e)
      case Success(p) => ParseFrom(files, i + 1, votes + [p.vote], records + p.records)
  }

  /**
   * What `extract` writes: None for a table that is not written, which happens exactly when
   * no file was found; otherwise the concatenated tables, XML files before JSON files.
   */
  datatype Output = Output(votes: Option<seq<VoteRow>>, records: Option<seq<RecordRow>>)

  function ExtractSpec(xmlFiles: seq<VoteFile>, jsonFiles: seq<VoteFile>): Result<Output, string> {
    var tables :- ParseFrom(xmlFiles + jsonFiles, 0, [], []);
    if |xmlFiles| + |jsonFiles| == 0 then Success(Output(None, None))
    else Success(Output(Some(tables.0), Some(tables.1)))
  }

  /** `extract`: the XML files, then the JSON files, each parsed and appended; any failure aborts. */
  method Extract(xmlFiles: seq<VoteFile>, jsonFiles: seq<VoteFile>) returns (r: Result<Output, string>)
    ensures r == ExtractSpec(xmlFiles, jsonFiles)
  {
    var files := xmlFiles + jsonFiles;
    var votes: seq<VoteRow>, records: seq<RecordRow> := [], [];
    var parsedAny := false;
    for i := 0 to |files|
      invariant ParseFrom(files, 0, [], []) == ParseFrom(files, i, votes, records)
      invariant parsedAny <==> i > 0
    {
      var p := ParseFileMethod(files[i]);
      if p.Failure? {
        return Failure(p.error);
      }
      votes := votes + [p.value.vote];
      records := records + p.value.records;
      parsedAny := true;
    }
    if parsedAny {
      r := Success(Output(Some(votes), Some(records)));
    } else {
      r := Success(Output(None, None));
    }
  }

  lemma {:induction false} ParseFromShape(files: seq<VoteFile>, i: nat, votes: seq<VoteRow>, records: seq<RecordRow>)
    requires i <= |files|
    ensures var r := ParseFrom(files, i, votes, records);
      r.Success? ==> |r.value.0| == |votes| + |files| - i && votes <= r.value.0 && records <= r.value.1
    decreases |files| - i
  {
    if i < |files| {
      var p := ParseFile(files[i]);
      if p.Success? {
        ParseFromShape(files, i + 1, votes + [p.value.vote], records + p.value.records);
      }
    }
  }

  /** One vote row per file, the XML files' rows first, and both tables written iff some file was found. */
  lemma ExtractShape(xmlFiles: seq<VoteFile>, jsonFiles: seq<VoteFile>)
    ensures var r := ExtractSpec(xmlFiles, jsonFiles);
      r.Success? ==>
        && (r.value.votes.Some? <==> |xmlFiles| + |jsonFiles| > 0)
        && (r.value.records.Some? <==> |xmlFiles| + |jsonFiles| > 0)
        && (r.value.votes.Some? ==> |r.value.votes.value| == |xmlFiles| + |jsonFiles|)
  {
    ParseFromShape(xmlFiles + jsonFiles, 0, [], []);
  }

  /** The first file's vote row leads the table: with an XML file present, that is the first XML file's. */
  lemma XmlBeforeJson(xmlFiles: seq<VoteFile>, jsonFiles: seq<VoteFile>)
    requires |xmlFiles| > 0
    ensures var r := ExtractSpec(xmlFiles, jsonFiles);
      r.Success? ==> && ParseFile(xmlFiles[0]).Success? && r.value.votes.Some? && |r.value.votes.value| > 0
                     && r.value.votes.value[0] == ParseFile(xmlFiles[0]).value.vote
  {
    var files := xmlFiles + jsonFiles;
    assert files[0] == xmlFiles[0];
    var p := ParseFile(files[0]);
    if p.Success? {
      ParseFromShape(files, 1, [p.value.vote], p.value.records);
      var t := ParseFrom(files, 0, [], []);
      assert [] + [p.value.vote] == [p.value.vote] && [] + p.value.records == p.value.records;
      assert t == ParseFrom(files, 1, [p.value.vote], p.value.records);
      if t.Success? {
        assert ExtractSpec(xmlFiles, jsonFiles) == Success(Output(Some(t.value.0), Some(t.value.1)));
        assert [p.value.vote] <= t.value.0;
        assert t.value.0[0] == [p.value.vote][0];
      }
    }
  }
}
