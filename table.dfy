/** The row-table logic the scraper applies to the county and municipality
    listings: header and total rows removed, the outage filter, and the one
    relabelled county. */
module Table {
  import opened Wrappers
  import opened PyList
  import opened Browser

  /** `rows.pop(0)` (the header) followed by `rows.pop(len(rows) - 1)` (the
      total row). Fewer than two rows make one of the pops raise IndexError. */
  function WithoutHeaderAndTotal(rows: seq<Row>): (r: Result<seq<Row>>)
    ensures r.Ok? <==> |rows| >= 2
    ensures r.Err? ==> r.error == IndexError
    ensures r.Ok? ==> r.value == rows[1..|rows| - 1]
  {
    var header :- Pop(rows, 0);
    var total :- Pop(header.1, |header.1| - 1);
    assert header.1 == rows[1..];
    Ok(total.1)
  }

  /** The data rows of a page's location table: the table lookup, then the
      two pops. */
  function TableRows(page: Page): (r: Result<seq<Row>>)
    ensures r.Ok? <==> page.locationList.Some? && |page.locationList.value| >= 2
    ensures r.Ok? ==> r.value == page.locationList.value[1..|page.locationList.value| - 1]
    ensures page.locationList.None? ==> r == Err(NoSuchElement)
    ensures page.locationList.Some? && |page.locationList.value| < 2 ==> r == Err(IndexError)
  {
    var rows :- FindLocationRows(page);
    WithoutHeaderAndTotal(rows)
  }

  /** The data rows of a table with a header, `n` entries and a total row are
      exactly the `n` entries, in order. */
  lemma TableRowsOfListing(header: Row, entries: seq<Row>, total: Row)
    ensures TableRows(Page(Some([header] + entries + [total]), None, None, None, false)) == Ok(entries)
  {
    var rows := [header] + entries + [total];
    assert rows[1..|rows| - 1] == entries;
  }

  /** A row of a listing indicates an outage when either indicator cell is
      not the text "0". */
  predicate HasOutage(row: Row) {
    |row| >= 3 && (row[1] != "0" || row[2] != "0")
  }

  lemma IndicatorCases(name: string)
    ensures !HasOutage([name, "0", "0"])
    ensures HasOutage([name, "0", "3"])
    ensures HasOutage([name, "5", "0"])
    ensures HasOutage([name, "5", "3"])
  {
  }

  const VastraGotalandLabel := "V Götalands län"
  const VastraGotalandId := "västragötaland"

  /** The one label the filter rewrites; every other name passes verbatim. */
  function Relabel(name: string): (r: string)
    ensures r == VastraGotalandId <==> name == VastraGotalandLabel || name == VastraGotalandId
    ensures name != VastraGotalandLabel ==> r == name
  {
    if name == VastraGotalandLabel then VastraGotalandId else name
  }

  predicate AllHaveThreeCells(rows: seq<Row>) {
    forall i :: 0 <= i < |rows| ==> |rows[i]| >= 3
  }

  /** What the accumulator loop of `__GetPlaceNameWithOutages` holds after
      the given rows: every row's three cells are read (IndexError on a short
      row), and an outage row contributes its relabelled name. */
  function PlaceNamesWithOutage(rows: seq<Row>): (r: Result<seq<string>>)
    ensures r.Ok? <==> AllHaveThreeCells(rows)
    ensures r.Err? ==> r.error == IndexError
    ensures r.Ok? ==> |r.value| <= |rows|
    decreases |rows|
  {
    if rows == [] then Ok([])
    else
      var init := rows[..|rows| - 1];
      var row := rows[|rows| - 1];
      assert AllHaveThreeCells(rows) <==> AllHaveThreeCells(init) && |row| >= 3;
      var names :- PlaceNamesWithOutage(init);
      if |row| < 3 then Err(IndexError)
      else if HasOutage(row) then Ok(names + [Relabel(row[0])])
      else Ok(names)
  }

  /** Reference filter: the outage rows, in their original order. */
  function OutageRows(rows: seq<Row>): (r: seq<Row>)
    ensures |r| <= |rows|
    ensures forall i :: 0 <= i < |r| ==> HasOutage(r[i])
    ensures forall row :: row in r <==> row in rows && HasOutage(row)
  {
    if rows == [] then []
    else (if HasOutage(rows[0]) then [rows[0]] else []) + OutageRows(rows[1..])
  }

  lemma {:induction false} OutageRowsAppend(rows: seq<Row>, row: Row)
    ensures OutageRows(rows + [row]) == OutageRows(rows) + (if HasOutage(row) then [row] else [])
  {
    if rows == [] {
      assert [row][1..] == [];
    } else {
      assert (rows + [row])[1..] == rows[1..] + [row];
      OutageRowsAppend(rows[1..], row);
    }
  }

  /** The relabelled first cells of the given outage rows. */
  function RelabelledNames(rows: seq<Row>): (r: seq<string>)
    requires forall i :: 0 <= i < |rows| ==> HasOutage(rows[i])
    ensures |r| == |rows|
  {
    seq(|rows|, i requires 0 <= i < |rows| => assert HasOutage(rows[i]); Relabel(rows[i][0]))
  }

  /** On a well-formed table the accumulator loop yields exactly the
      relabelled names of the outage rows, in row order. */
  lemma {:induction false} PlaceNamesAreOutageRows(rows: seq<Row>)
    requires AllHaveThreeCells(rows)
    ensures PlaceNamesWithOutage(rows) == Ok(RelabelledNames(OutageRows(rows)))
    decreases |rows|
  {
    if rows != [] {
      var init := rows[..|rows| - 1];
      var row := rows[|rows| - 1];
      assert rows == init + [row];
      PlaceNamesAreOutageRows(init);
      OutageRowsAppend(init, row);
      var before := OutageRows(init);
      assert PlaceNamesWithOutage(init) == Ok(RelabelledNames(before));
      assert |row| >= 3;
      if HasOutage(row) {
        assert OutageRows(rows) == before + [row];
        assert RelabelledNames(before + [row]) == RelabelledNames(before) + [Relabel(row[0])];
        assert PlaceNamesWithOutage(rows) == Ok(RelabelledNames(before) + [Relabel(row[0])]);
      } else {
        assert OutageRows(rows) == before;
        assert PlaceNamesWithOutage(rows) == Ok(RelabelledNames(before));
      }
    }
  }
}
