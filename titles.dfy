/**
 * The `TitleBasics` record and its two construction paths: from a map of
 * field names to texts (`TitleBasics::from`), and from a database row seen
 * through the two-operation `DbRow` capability (`TitleBasics::from_db_row`),
 * plus the `start_year` accessor and mutator and the map-backed test row.
 */
module Titles {
  import opened Prelude
  import opened IntParse

  /** The record's four attributes. */
  datatype Attr = Id | TitleType | PrimaryTitle | StartYear

  /** The key under which `TitleBasics::from` looks each attribute up. */
  function FieldKey(a: Attr): string {
    match a
    case Id => "id"
    case TitleType => "title_type"
    case PrimaryTitle => "primary_title"
    case StartYear => "start_year"
  }

  /** The column from which `TitleBasics::from_db_row` reads each attribute. */
  function ColumnName(a: Attr): string {
    match a
    case Id => "tconst"
    case TitleType => "titletype"
    case PrimaryTitle => "primarytitle"
    case StartYear => "startyear"
  }

  /** The value of a `TitleBasics`: a mandatory id and three optional attributes. */
  datatype Title = Title(id: string, titleType: Option<string>, primaryTitle: Option<string>, startYear: Option<I32>)

  /** `HashMap::get` followed by `to_string`. */
  function Get(m: map<string, string>, key: string): (r: Option<string>)
    ensures r.Some? <==> key in m
    ensures r.Some? ==> r.value == m[key]
  {
    if key in m then Some(m[key]) else None
  }

  /**
   * `TitleBasics::from`. Indexing the map with "id" panics when the key is
   * missing, so the key is required; everything else is optional, and a
   * year text that does not parse is simply absent.
   */
  function FromFields(fields: map<string, string>): (r: Title)
    requires "id" in fields
    ensures r.id == fields["id"]
    ensures r.titleType.Some? <==> "title_type" in fields
    ensures r.titleType.Some? ==> r.titleType.value == fields["title_type"]
    ensures r.primaryTitle.Some? <==> "primary_title" in fields
    ensures r.primaryTitle.Some? ==> r.primaryTitle.value == fields["primary_title"]
    ensures r.startYear.Some? <==> "start_year" in fields && IsI32Text(fields["start_year"])
    ensures r.startYear.Some? ==> r.startYear.value == DecimalValue(fields["start_year"])
  {
    Title(
      fields[FieldKey(Id)],
      Get(fields, FieldKey(TitleType)),
      Get(fields, FieldKey(PrimaryTitle)),
      match Get(fields, FieldKey(StartYear))
      case None => None
      case Some(text) => ParseI32(text))
  }

  /**
   * The `DbRow` capability: an optional string and an optional `i32` per
   * column. Either operation may panic on some columns (the test row's
   * `opt_i32` does), so both are partial functions and `requires` says
   * where they are defined.
   */
  datatype DbRow = DbRow(optString: string --> Option<string>, optI32: string --> Option<I32>)

  /** Every column `from_db_row` reads can be read without a panic. */
  ghost predicate Readable(row: DbRow) {
    && row.optString.requires(ColumnName(Id))
    && row.optString.requires(ColumnName(TitleType))
    && row.optString.requires(ColumnName(PrimaryTitle))
    && row.optI32.requires(ColumnName(StartYear))
  }

  /**
   * `TitleBasics::from_db_row`. The `unwrap` of the id column panics when it
   * is `None`, so it is required; the other columns pass through unchanged.
   */
  function FromRow(row: DbRow): (r: Title)
    requires Readable(row) && row.optString("tconst").Some?
    ensures r.id == row.optString("tconst").value
    ensures r.titleType == row.optString("titletype")
    ensures r.primaryTitle == row.optString("primarytitle")
    ensures r.startYear == row.optI32("startyear")
  {
    Title(
      row.optString(ColumnName(Id)).value,
      row.optString(ColumnName(TitleType)),
      row.optString(ColumnName(PrimaryTitle)),
      row.optI32(ColumnName(StartYear)))
  }

  /** The mock row of the unit test: a map from column names to texts. */
  datatype TestDbRow = TestDbRow(entries: map<string, string>) {

    function OptString(column: string): (r: Option<string>)
      ensures r.Some? <==> column in entries
      ensures r.Some? ==> r.value == entries[column]
    {
      Get(entries, column)
    }

    /** `parse::<i32>().unwrap()` panics on a text that does not parse. */
    ghost predicate ParsesAt(column: string) {
      column in entries ==> IsI32Text(entries[column])
    }

    function OptI32(column: string): (r: Option<I32>)
      requires ParsesAt(column)
      ensures r.Some? <==> column in entries
      ensures r.Some? ==> r.value == DecimalValue(entries[column])
    {
      match Get(entries, column)
      case None => None
      case Some(text) => Some(ParseI32(text).value)
    }

    /** This mock as a `&dyn DbRow`. */
    function AsDbRow(): (row: DbRow)
      ensures forall c :: row.optString.requires(c) && row.optString(c) == OptString(c)
      ensures forall c | ParsesAt(c) :: row.optI32.requires(c) && row.optI32(c) == OptI32(c)
    {
      DbRow(c => OptString(c), c requires ParsesAt(c) => OptI32(c))
    }
  }

  /** `test_title_basics_from_db_row`: a row holding only the id yields only the id. */
  lemma FromIdOnlyTestRow(id: string)
    ensures FromRow(TestDbRow(map["tconst" := id]).AsDbRow()) == Title(id, None, None, None)
  {
  }

  /** A map holding only the id yields only the id. */
  lemma FromIdOnlyFields(fields: map<string, string>)
    requires fields.Keys == {"id"}
    ensures FromFields(fields) == Title(fields["id"], None, None, None)
  {
  }

  /** The map of `struct_impl`. */
  lemma FromFieldsExample()
    ensures FromFields(map["id" := "tt000001", "title_type" := "documentary",
                           "primary_title" := "The Blue Planet", "start_year" := "1999"])
         == Title("tt000001", Some("documentary"), Some("The Blue Planet"), Some(1999))
  {
  }

  /** The map and the test row hold the same texts under the two naming schemes. */
  ghost predicate SameUnderSchemas(fields: map<string, string>, t: TestDbRow) {
    forall a: Attr :: Get(fields, FieldKey(a)) == t.OptString(ColumnName(a))
  }

  /**
   * The two construction paths agree: a test row and a map holding the same
   * texts under their own names build the same record, provided the year
   * text parses (otherwise the test row's `opt_i32` panics, while `from` leaves
   * the year absent).
   */
  lemma FromRowAgreesWithFromFields(fields: map<string, string>, t: TestDbRow)
    requires SameUnderSchemas(fields, t)
    requires "id" in fields
    requires t.ParsesAt("startyear")
    ensures Readable(t.AsDbRow()) && t.AsDbRow().optString("tconst").Some?
    ensures FromRow(t.AsDbRow()) == FromFields(fields)
  {
  }

  /** A `TitleBasics` value, updated in place by `set_start_year`. */
  class TitleBasics {
    var id: string
    var titleType: Option<string>
    var primaryTitle: Option<string>
    var startYear: Option<I32>

    /** The four fields as a record. */
    function Snapshot(): Title
      reads this
    {
      Title(id, titleType, primaryTitle, startYear)
    }

    /** `TitleBasics::from`. */
    constructor From(fields: map<string, string>)
      requires "id" in fields
      ensures Snapshot() == FromFields(fields)
    {
      var t := FromFields(fields);
      id, titleType, primaryTitle, startYear := t.id, t.titleType, t.primaryTitle, t.startYear;
    }

    /** `TitleBasics::from_db_row`. */
    constructor FromDbRow(row: DbRow)
      requires Readable(row) && row.optString("tconst").Some?
      ensures Snapshot() == FromRow(row)
    {
      var t := FromRow(row);
      id, titleType, primaryTitle, startYear := t.id, t.titleType, t.primaryTitle, t.startYear;
    }

    /** `get_start_year`: the stored year; a function, so it changes nothing. */
    function GetStartYear(): (y: Option<I32>)
      reads this
      ensures y == Snapshot().startYear
    {
      startYear
    }

    /** `set_start_year`: the year becomes present, whatever it was, and nothing else changes. */
    method SetStartYear(year: I32)
      modifies this
      ensures GetStartYear() == Some(year)
      ensures Snapshot() == old(Snapshot()).(startYear := Some(year))
    {
      startYear := Some(year);
    }
  }

  /** `struct_impl`: build from the example map, read, set, read again. */
  method StructImpl() returns (before: Option<I32>, after: Option<I32>)
    ensures before == Some(1999)
    ensures after == Some(1998)
  {
    var fields := map["id" := "tt000001", "title_type" := "documentary",
                      "primary_title" := "The Blue Planet", "start_year" := "1999"];
    FromFieldsExample();
    var tb := new TitleBasics.From(fields);
    before := tb.GetStartYear();
    tb.SetStartYear(1998);
    after := tb.GetStartYear();
  }

  /** `test_title_basics_from_db_row`, on the object. */
  method TestTitleBasicsFromDbRow() returns (id: string, rest: (Option<string>, Option<string>, Option<I32>))
    ensures id == "abcd"
    ensures rest == (None, None, None)
  {
    var testRow := TestDbRow(map["tconst" := "abcd"]);
    FromIdOnlyTestRow("abcd");
    var tb := new TitleBasics.FromDbRow(testRow.AsDbRow());
    id, rest := tb.id, (tb.titleType, tb.primaryTitle, tb.startYear);
  }
}
