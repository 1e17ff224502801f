/** scripts/import_and_generate_embeddings.py: turn the rows of the subgenre
    spreadsheet into records with a prototype text, then ask the embedding
    service for each record's embedding, collecting the names that failed.
    The spreadsheet reader and the embedding service are outside the model:
    rows arrive already read, and `embed` stands for `get_embedding`, giving
    `None` where the request raises. */
module SubgenreImport {
  import opened Basics

  /** One spreadsheet row. The two required cells are given as `str` renders
      them; an optional cell is `None` when its column is absent or the cell is
      empty (`pd.notna` is false), and otherwise holds the cell as text. */
  datatype SheetRow = SheetRow(
    parentGenre: string,
    subGenre: string,
    shortDescription: Option<string>,
    keyThemes: Option<string>,
    commonTropes: Option<string>,
    synonyms: Option<string>,
    exemplarProse: Option<string>)

  /** One entry of `subgenres`. */
  datatype SubgenreRecord = SubgenreRecord(parentGenre: string, subGenre: string, prototypeText: string, embedding: Option<seq<real>>)

  /** How the run ends: aborted on missing columns, crashed on an empty sheet
      (indexing `subgenres[0]` raises), or done with the records and the names
      whose embedding failed. */
  datatype ImportOutcome =
    | MissingRequired(missing: seq<string>)
    | NoRows
    | Imported(subgenres: seq<SubgenreRecord>, failed: seq<string>)

  const Separator: string := ". "

  const RequiredColumns: seq<string> := ["Parent Genre", "Sub Genre"]

  // ----- The required-column check -----

  /** The elements of `required` that are not among `columns`, in order. */
  function Absent(required: seq<string>, columns: seq<string>): (missing: seq<string>)
    ensures forall c :: c in missing <==> c in required && c !in columns
    ensures |missing| <= |required|
  {
    if required == [] then []
    else (if required[0] in columns then [] else [required[0]]) + Absent(required[1..], columns)
  }

  /** The required columns the sheet lacks, in the order they are required. */
  function MissingColumns(columns: seq<string>): seq<string> {
    Absent(RequiredColumns, columns)
  }

  /** `missing` names exactly the absent required columns, 'Parent Genre' first. */
  lemma MissingColumnsExact(columns: seq<string>)
    ensures MissingColumns(columns) ==
      (if "Parent Genre" in columns then [] else ["Parent Genre"]) +
      (if "Sub Genre" in columns then [] else ["Sub Genre"])
  {
    var rest := RequiredColumns[1..];
    assert rest == ["Sub Genre"] && rest[1..] == [];
    assert Absent(rest, columns) == (if "Sub Genre" in columns then [] else ["Sub Genre"]) + Absent(rest[1..], columns);
  }

  // ----- create_prototype_text -----

  /** The parent genre and the subgenre joined by a spaced dash. */
  function Head(row: SheetRow): string {
    row.parentGenre + " - " + row.subGenre
  }

  /** The part an optional cell contributes: its tag and text, or nothing. */
  function Tagged(tag: string, cell: Option<string>): seq<string> {
    if cell.Some? then [tag + cell.value] else []
  }

  /** The `parts` list, in the order the function appends to it. */
  function Parts(row: SheetRow): (parts: seq<string>)
    ensures 1 <= |parts| <= 6 && parts[0] == Head(row)
  {
    [Head(row)]
      + Tagged("", row.shortDescription)
      + Tagged("Key themes: ", row.keyThemes)
      + Tagged("Common tropes: ", row.commonTropes)
      + Tagged("Also known as: ", row.synonyms)
      + Tagged("Example: ", row.exemplarProse)
  }

  /** Python's `sep.join(parts)`. */
  function Join(parts: seq<string>, sep: string): string {
    if parts == [] then ""
    else if |parts| == 1 then parts[0]
    else parts[0] + sep + Join(parts[1..], sep)
  }

  lemma {:induction false} JoinAppend(parts: seq<string>, x: string, sep: string)
    requires parts != []
    ensures Join(parts + [x], sep) == Join(parts, sep) + sep + x
  {
    if |parts| > 1 {
      assert (parts + [x])[1..] == parts[1..] + [x];
      JoinAppend(parts[1..], x, sep);
    }
  }

  /** Conditionally appends each optional part, then joins with ". ". */
  method CreatePrototypeText(row: SheetRow) returns (text: string)
    ensures text == Join(Parts(row), Separator)
  {
    var parts: seq<string> := [];
    parts := parts + [row.parentGenre + " - " + row.subGenre];
    if row.shortDescription.Some? {
      parts := parts + [row.shortDescription.value];
      assert "" + row.shortDescription.value == row.shortDescription.value;
    }
    assert parts == [Head(row)] + Tagged("", row.shortDescription);
    ghost var p1 := parts;
    if row.keyThemes.Some? {
      parts := parts + ["Key themes: " + row.keyThemes.value];
    }
    assert parts == p1 + Tagged("Key themes: ", row.keyThemes);
    ghost var p2 := parts;
    if row.commonTropes.Some? {
      parts := parts + ["Common tropes: " + row.commonTropes.value];
    }
    assert parts == p2 + Tagged("Common tropes: ", row.commonTropes);
    ghost var p3 := parts;
    if row.synonyms.Some? {
      parts := parts + ["Also known as: " + row.synonyms.value];
    }
    assert parts == p3 + Tagged("Also known as: ", row.synonyms);
    ghost var p4 := parts;
    if row.exemplarProse.Some? {
      parts := parts + ["Example: " + row.exemplarProse.value];
    }
    assert parts == p4 + Tagged("Example: ", row.exemplarProse);
    text := Join(parts, Separator);
  }

  /** What an optional cell adds to the text: ". ", its tag and its text, or nothing. */
  function Section(tag: string, cell: Option<string>): string {
    if cell.Some? then Separator + tag + cell.value else ""
  }

  function JoinTagged(prefix: seq<string>, tag: string, cell: Option<string>): string
    requires prefix != []
  {
    Join(prefix + Tagged(tag, cell), Separator)
  }

  lemma JoinTaggedSection(prefix: seq<string>, tag: string, cell: Option<string>)
    requires prefix != []
    ensures JoinTagged(prefix, tag, cell) == Join(prefix, Separator) + Section(tag, cell)
  {
    if cell.Some? {
      JoinAppend(prefix, tag + cell.value, Separator);
    } else {
      assert prefix + [] == prefix;
    }
  }

  /** The prototype text is the head followed by one section per present
      optional cell, in the fixed order description, key themes, common tropes,
      synonyms, exemplar prose. */
  lemma PrototypeSections(row: SheetRow)
    ensures Join(Parts(row), Separator) ==
      Head(row)
        + Section("", row.shortDescription)
        + Section("Key themes: ", row.keyThemes)
        + Section("Common tropes: ", row.commonTropes)
        + Section("Also known as: ", row.synonyms)
        + Section("Example: ", row.exemplarProse)
  {
    var p0 := [Head(row)];
    var p1 := p0 + Tagged("", row.shortDescription);
    var p2 := p1 + Tagged("Key themes: ", row.keyThemes);
    var p3 := p2 + Tagged("Common tropes: ", row.commonTropes);
    var p4 := p3 + Tagged("Also known as: ", row.synonyms);
    JoinTaggedSection(p0, "", row.shortDescription);
    JoinTaggedSection(p1, "Key themes: ", row.keyThemes);
    JoinTaggedSection(p2, "Common tropes: ", row.commonTropes);
    JoinTaggedSection(p3, "Also known as: ", row.synonyms);
    JoinTaggedSection(p4, "Example: ", row.exemplarProse);
    assert Parts(row) == p4 + Tagged("Example: ", row.exemplarProse);
  }

  /** The text begins with the head, and is the head alone when no optional
      cell is present. */
  lemma PrototypeHead(row: SheetRow)
    ensures Head(row) <= Join(Parts(row), Separator)
    ensures row.shortDescription.None? && row.keyThemes.None? && row.commonTropes.None?
            && row.synonyms.None? && row.exemplarProse.None? ==>
              Join(Parts(row), Separator) == Head(row)
  {
    PrototypeSections(row);
  }

  // ----- The record-building loop -----

  /** The record built for a row, still without an embedding. */
  function RecordOf(row: SheetRow): SubgenreRecord {
    SubgenreRecord(row.parentGenre, row.subGenre, Join(Parts(row), Separator), None)
  }

  /** One record per row, in row order. */
  method BuildRecords(rows: seq<SheetRow>) returns (subgenres: seq<SubgenreRecord>)
    ensures |subgenres| == |rows|
    ensures forall i :: 0 <= i < |rows| ==> subgenres[i] == RecordOf(rows[i])
  {
    subgenres := [];
    var i := 0;
    while i < |rows|
      invariant 0 <= i <= |rows|
      invariant |subgenres| == i
      invariant forall k :: 0 <= k < i ==> subgenres[k] == RecordOf(rows[k])
    {
      var row := rows[i];
      var prototypeText := CreatePrototypeText(row);
      subgenres := subgenres + [SubgenreRecord(row.parentGenre, row.subGenre, prototypeText, None)];
      i := i + 1;
    }
  }

  // ----- The embedding loop -----

  /** `if embedding:` — `None` and the empty list are both false. */
  predicate Truthy(e: Option<seq<real>>) {
    e.Some? && e.value != []
  }

  /** A record after its request: the embedding when truthy, else unchanged. */
  function EmbedOne(r: SubgenreRecord, embed: string -> Option<seq<real>>): SubgenreRecord {
    var e := embed(r.prototypeText);
    if Truthy(e) then r.(embedding := e) else r
  }

  function Embedded(records: seq<SubgenreRecord>, embed: string -> Option<seq<real>>): seq<SubgenreRecord> {
    seq(|records|, i requires 0 <= i < |records| => EmbedOne(records[i], embed))
  }

  /** The `sub_genre` of every record whose request failed, in order. */
  function FailedNames(records: seq<SubgenreRecord>, embed: string -> Option<seq<real>>): seq<string> {
    if records == [] then []
    else
      var last := records[|records| - 1];
      FailedNames(records[..|records| - 1], embed) + (if Truthy(embed(last.prototypeText)) then [] else [last.subGenre])
  }

  /** How many records carry an embedding. */
  function EmbeddedCount(records: seq<SubgenreRecord>): nat {
    if records == [] then 0
    else EmbeddedCount(records[..|records| - 1]) + (if records[|records| - 1].embedding.Some? then 1 else 0)
  }

  /** One request per record, in order: a truthy answer is stored in the
      record, any other answer appends the record's name to `failed`. */
  method GenerateEmbeddings(records: seq<SubgenreRecord>, embed: string -> Option<seq<real>>)
    returns (subgenres: seq<SubgenreRecord>, failed: seq<string>)
    ensures subgenres == Embedded(records, embed)
    ensures failed == FailedNames(records, embed)
  {
    subgenres := records;
    failed := [];
    var i := 0;
    while i < |subgenres|
      invariant 0 <= i <= |records| == |subgenres|
      invariant forall k :: 0 <= k < i ==> subgenres[k] == EmbedOne(records[k], embed)
      invariant forall k :: i <= k < |records| ==> subgenres[k] == records[k]
      invariant failed == FailedNames(records[..i], embed)
    {
      var genre := subgenres[i];
      var embedding := embed(genre.prototypeText);
      if embedding.Some? && embedding.value != [] {
        subgenres := subgenres[i := genre.(embedding := embedding)];
      } else {
        failed := failed + [genre.subGenre];
      }
      assert records[..i + 1][..i] == records[..i];
      i := i + 1;
    }
    assert records[..i] == records;
  }

  /** For records that start without an embedding, those that end with one
      number `total - len(failed)`. */
  lemma {:induction false} SuccessCount(records: seq<SubgenreRecord>, embed: string -> Option<seq<real>>)
    requires forall i :: 0 <= i < |records| ==> records[i].embedding.None?
    ensures |FailedNames(records, embed)| <= |records|
    ensures EmbeddedCount(Embedded(records, embed)) == |records| - |FailedNames(records, embed)|
  {
    if records != [] {
      var init := records[..|records| - 1];
      SuccessCount(init, embed);
      assert Embedded(records, embed)[..|records| - 1] == Embedded(init, embed);
    }
  }

  // ----- The run -----

  /** What the script leaves behind for a sheet with the given columns and
      rows, given the embedding service's answers. */
  function ImportResult(columns: seq<string>, rows: seq<SheetRow>, embed: string -> Option<seq<real>>): ImportOutcome {
    if MissingColumns(columns) != [] then MissingRequired(MissingColumns(columns))
    else if rows == [] then NoRows
    else
      var records := seq(|rows|, i requires 0 <= i < |rows| => RecordOf(rows[i]));
      Imported(Embedded(records, embed), FailedNames(records, embed))
  }

  /** The column check, the record-building loop and the embedding loop. */
  method ImportSubgenres(columns: seq<string>, rows: seq<SheetRow>, embed: string -> Option<seq<real>>)
    returns (outcome: ImportOutcome)
    ensures outcome == ImportResult(columns, rows, embed)
  {
    var missing := MissingColumns(columns);
    if missing != [] {
      return MissingRequired(missing);
    }
    var subgenres := BuildRecords(rows);
    if |subgenres| == 0 {
      return NoRows;
    }
    assert subgenres == seq(|rows|, i requires 0 <= i < |rows| => RecordOf(rows[i]));
    var failed;
    subgenres, failed := GenerateEmbeddings(subgenres, embed);
    outcome := Imported(subgenres, failed);
  }

  /** The run aborts exactly when a required column is missing; otherwise a
      non-empty sheet yields one record per row, in row order, with the row's
      names and prototype text, an embedding exactly when the service answered
      with a non-empty one, and `total - len(failed)` embedded records. */
  lemma ImportResultCorrect(columns: seq<string>, rows: seq<SheetRow>, embed: string -> Option<seq<real>>)
    ensures ImportResult(columns, rows, embed).MissingRequired? <==> MissingColumns(columns) != []
    ensures ImportResult(columns, rows, embed).NoRows? <==> MissingColumns(columns) == [] && rows == []
    ensures ImportResult(columns, rows, embed).Imported? ==>
      var out := ImportResult(columns, rows, embed);
      && |out.subgenres| == |rows|
      && (forall i :: 0 <= i < |rows| ==>
            && out.subgenres[i].parentGenre == rows[i].parentGenre
            && out.subgenres[i].subGenre == rows[i].subGenre
            && out.subgenres[i].prototypeText == Join(Parts(rows[i]), Separator)
            && (Truthy(embed(out.subgenres[i].prototypeText)) ==> out.subgenres[i].embedding == embed(out.subgenres[i].prototypeText))
            && (!Truthy(embed(out.subgenres[i].prototypeText)) ==> out.subgenres[i].embedding.None?))
      && EmbeddedCount(out.subgenres) == |rows| - |out.failed|
  {
    if ImportResult(columns, rows, embed).Imported? {
      var records := seq(|rows|, i requires 0 <= i < |rows| => RecordOf(rows[i]));
      SuccessCount(records, embed);
    }
  }
}
