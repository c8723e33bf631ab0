/**
 * The UIKit screens keep their rows with an optional value (`ConsentDataItem`
 * with `value: String?`, or the tuple `(title, value: String?)`), and a table
 * cell shows "null" for a missing value.
 */
module ConsentCell {
  import opened Wrappers
  import opened DiagnosticTable

  datatype Item = Item(title: string, value: Option<string>)

  const NullText: string := "null"

  /** The rows as UIKit items: every value is present. */
  function AsItems(rows: seq<Row>): (items: seq<Item>)
    ensures |items| == |rows|
    ensures forall i :: 0 <= i < |rows| ==> items[i].title == rows[i].title && items[i].value.Some?
  {
    seq(|rows|, i requires 0 <= i < |rows| => Item(rows[i].title, Some(rows[i].value)))
  }

  /** The title and value labels of a cell after `configure(title:value:)`. */
  function Configure(title: string, value: Option<string>): (shown: Row)
    ensures shown.title == title
    ensures value.Some? ==> shown.value == value.value
    ensures value.None? ==> shown.value == NullText
  {
    Row(title, value.GetOr(NullText))
  }

  /** A cell shows its title unchanged, and "null" exactly for a missing value or a value that is "null" itself. */
  lemma ConfigureShowsNullOnlyForNil(title: string, value: Option<string>)
    ensures Configure(title, value).title == title
    ensures Configure(title, value).value == NullText <==> (value.None? || value == Some(NullText))
    ensures value.Some? ==> Configure(title, value).value == value.value
  {
  }

  /** Showing a table built from rows shows exactly those rows: "null" never replaces a value the table holds. */
  lemma CellsShowTheRows(rows: seq<Row>)
    ensures forall i :: 0 <= i < |rows| ==> Configure(AsItems(rows)[i].title, AsItems(rows)[i].value) == rows[i]
  {
  }
}
