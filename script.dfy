/** scraper.py, the one-shot script that preceded the class: the same three
    levels written as top-level loops, a five-field record without a count,
    and one write of outdata.json at the very end. An exception ends the
    program, so the file is written only when every loop finished. */
module Script {
  import opened Wrappers
  import opened PyStr
  import opened PyList
  import opened Browser
  import opened Table
  import opened Region
  import opened Detail
  import opened Scans

  /** The county identifier of scraper.py: the first word, lower-cased, then
      every trailing 's' removed; the Västra Götaland label is replaced
      outright. */
  function ScriptCountyId(name: string): (r: string)
    ensures ' ' !in r
    ensures |r| == 0 || r[|r| - 1] != 's'
    ensures IsLower(r)
    ensures name == VastraGotalandLabel ==> r == VastraGotalandId
  {
    if name != VastraGotalandLabel then
      var w := Lower(FirstWord(name));
      LowerKeepsSpaces(FirstWord(name));
      RStripShape(w, 's');
      assert forall k :: 0 <= k < |RStrip(w, 's')| ==> RStrip(w, 's')[k] == w[k];
      RStrip(w, 's')
    else
      VastraGotalandIsLower();
      VastraGotalandId
  }

  /** Applying the old normalisation to its own result changes nothing. */
  lemma ScriptCountyIdIdempotent(name: string)
    ensures ScriptCountyId(ScriptCountyId(name)) == ScriptCountyId(name)
  {
    var r := ScriptCountyId(name);
    assert ' ' in VastraGotalandLabel;
    FirstWordOfWord(r);
    LowerOfLower(r);
    RStripNoTrailing(r, 's');
  }

  /** `cells[1].text != "0" or cells[2].text != "0"`: Python's `or` reads the
      third cell only when the second one is "0". */
  function ScriptKeepsRow(cells: Row): (r: Result<bool>)
    ensures r.Err? <==> |cells| < 2 || (cells[1] == "0" && |cells| < 3)
    ensures r.Err? ==> r.error == IndexError
    ensures r == Ok(true) ==> |cells| >= 2
    ensures |cells| >= 3 ==> r == Ok(HasOutage(cells))
  {
    var first :- At(cells, 1);
    if first != "0" then Ok(true)
    else
      var second :- At(cells, 2);
      Ok(second != "0")
  }

  /** What one of the script's row loops has appended after the given rows,
      each kept row contributing `naming` of its first cell; a row too short
      for the test raises IndexError. */
  function KeptNames(rows: seq<Row>, naming: string -> string): (r: Result<seq<string>>)
    ensures r.Ok? ==> |r.value| <= |rows|
    decreases |rows|
  {
    if rows == [] then Ok([])
    else
      var names :- KeptNames(rows[..|rows| - 1], naming);
      var row := rows[|rows| - 1];
      var keep :- ScriptKeepsRow(row);
      if keep then Ok(names + [naming(row[0])]) else Ok(names)
  }

  /** The rows the script's `or` test keeps, in order: those whose test
      returns True. */
  function ScriptKeptRows(rows: seq<Row>): (r: seq<Row>)
    ensures |r| <= |rows|
    ensures forall i :: 0 <= i < |r| ==> ScriptKeepsRow(r[i]) == Ok(true)
    decreases |rows|
  {
    if rows == [] then []
    else
      var kept := ScriptKeptRows(rows[..|rows| - 1]);
      if ScriptKeepsRow(rows[|rows| - 1]) == Ok(true) then kept + [rows[|rows| - 1]] else kept
  }

  /** The row loop raises exactly when some row is too short for the test;
      otherwise it appends the naming of each kept row's first cell, in
      order, two-cell rows included. */
  lemma {:induction false} KeptNamesRows(rows: seq<Row>, naming: string -> string)
    ensures KeptNames(rows, naming).Ok? <==> forall i :: 0 <= i < |rows| ==> ScriptKeepsRow(rows[i]).Ok?
    ensures KeptNames(rows, naming).Ok? ==>
      var kept := ScriptKeptRows(rows);
      && |KeptNames(rows, naming).value| == |kept|
      && forall i :: 0 <= i < |kept| ==> KeptNames(rows, naming).value[i] == naming(kept[i][0])
    decreases |rows|
  {
    if rows != [] {
      var init := rows[..|rows| - 1];
      KeptNamesRows(init, naming);
      assert forall i :: 0 <= i < |init| ==> init[i] == rows[i];
      assert rows == init + [rows[|rows| - 1]];
    }
  }

  /** On rows of three cells the script keeps exactly the outage rows. */
  lemma {:induction false} ScriptKeptRowsOfThreeCells(rows: seq<Row>)
    requires AllHaveThreeCells(rows)
    ensures ScriptKeptRows(rows) == OutageRows(rows)
    decreases |rows|
  {
    if rows != [] {
      var init := rows[..|rows| - 1];
      assert rows == init + [rows[|rows| - 1]];
      ScriptKeptRowsOfThreeCells(init);
      OutageRowsAppend(init, rows[|rows| - 1]);
    }
  }

  /** Once a row raises, the loop has ended. */
  lemma {:induction false} KeptNamesStops(rows: seq<Row>, naming: string -> string, k: nat)
    requires k <= |rows| && KeptNames(rows[..k], naming).Err?
    ensures KeptNames(rows, naming) == KeptNames(rows[..k], naming)
    decreases |rows| - k
  {
    if k < |rows| {
      var init := rows[..|rows| - 1];
      assert init[..k] == rows[..k];
      KeptNamesStops(init, naming, k);
    } else {
      assert rows[..k] == rows;
    }
  }

  /** On rows of three cells the loop keeps exactly the outage rows, in
      order, and appends the naming of each one's first cell. */
  lemma {:induction false} KeptNamesOfOutageRows(rows: seq<Row>, naming: string -> string)
    requires AllHaveThreeCells(rows)
    ensures var kept := OutageRows(rows);
      && KeptNames(rows, naming).Ok?
      && |KeptNames(rows, naming).value| == |kept|
      && forall i :: 0 <= i < |kept| ==> KeptNames(rows, naming).value[i] == naming(kept[i][0])
    decreases |rows|
  {
    if rows != [] {
      var init := rows[..|rows| - 1];
      var row := rows[|rows| - 1];
      assert rows == init + [row];
      KeptNamesOfOutageRows(init, naming);
      OutageRowsAppend(init, row);
      var before := KeptNames(init, naming).value;
      assert |row| >= 3;
      if HasOutage(row) {
        assert KeptNames(rows, naming).value == before + [naming(row[0])];
        assert OutageRows(rows) == OutageRows(init) + [row];
      } else {
        assert KeptNames(rows, naming).value == before;
      }
    }
  }

  /** The county loop of scraper.py (lines 42-49) over the root page's rows. */
  function ScriptCounties(site: Site): (r: Result<seq<string>>)
    ensures r.Ok? ==> forall i :: 0 <= i < |r.value| ==> ' ' !in r.value[i]
  {
    var rows :- TableRows(PageAt(site, RootUrl));
    KeptCountyIds(rows);
    KeptNames(rows, ScriptCountyId)
  }

  /** The county identifiers keep the ScriptCountyId properties. */
  lemma {:induction false} KeptCountyIds(rows: seq<Row>)
    ensures KeptNames(rows, ScriptCountyId).Ok? ==>
      forall i :: 0 <= i < |KeptNames(rows, ScriptCountyId).value| ==>
        ' ' !in KeptNames(rows, ScriptCountyId).value[i]
    decreases |rows|
  {
    if rows != [] {
      KeptCountyIds(rows[..|rows| - 1]);
    }
  }

  /** One county's listing as the inner loop of scraper.py reads it. */
  function ScriptListing(site: Site, county: string): (r: Result<seq<string>>)
  {
    var rows :- TableRows(PageAt(site, CountyPageUrl(county)));
    KeptNames(rows, Lower)
  }

  function ScriptListingStep(site: Site): string -> Result<seq<string>> {
    county => ScriptListing(site, county)
  }

  /** The loop over the counties (lines 54-70). */
  function ScriptMunicipalityScan(site: Site, counties: seq<string>): Scan<string> {
    CollectAll(Map(ScriptListingStep(site), counties))
  }

  /** The record scraper.py builds: no count is stored. */
  datatype ScriptOutage = ScriptOutage(
    municipality: string, startTime: string, endTime: string,
    infoText: string, lastUpdate: string)

  datatype ScriptSnapshot = ScriptSnapshot(outages: seq<ScriptOutage>)

  /** The keys of an old record, in the order json.dumps writes them. */
  const ScriptOutageKeys: seq<string> :=
    ["municipality", "start_time", "end_time", "info_text", "last_update"]

  /** The members of the JSON object an old record is written as. */
  function ScriptEntries(o: ScriptOutage): seq<(string, string)> {
    [("municipality", o.municipality), ("start_time", o.startTime), ("end_time", o.endTime),
     ("info_text", o.infoText), ("last_update", o.lastUpdate)]
  }

  /** An old record has five keys, once each, in order: the new record's
      keys without "affected_customers". */
  lemma ScriptEntriesKeys(o: ScriptOutage)
    ensures var e := ScriptEntries(o);
      && |e| == |ScriptOutageKeys| == 5
      && (forall k :: 0 <= k < |e| ==> e[k].0 == ScriptOutageKeys[k])
      && ScriptOutageKeys == OutageKeys[..5]
      && "affected_customers" !in ScriptOutageKeys
      && e[0].1 == o.municipality && e[1].1 == o.startTime && e[2].1 == o.endTime
      && e[3].1 == o.infoText && e[4].1 == o.lastUpdate
  {
  }

  /** One detail page (lines 80-138): the three lines are split in order, the
      count's field included although it is never stored, then the note and
      the update stamp. */
  function ScriptRecord(site: Site, municipality: string): (r: Result<ScriptOutage>)
    ensures r.Ok? ==> r.value.municipality == municipality
  {
    var page := PageAt(site, MunicipalityPageUrl(municipality));
    var divs :- FindTimestampDivs(page);
    var line0 :- At(divs, 0);
    var startTime :- Field(line0);
    var line1 :- At(divs, 1);
    var endTime :- Field(line1);
    var line2 :- At(divs, 2);
    var customers :- Field(line2);
    var infoText :- FindText(page.customerInformation);
    var lastUpdate :- FindText(page.lastUpdated);
    Ok(ScriptOutage(municipality, startTime, endTime, infoText, lastUpdate))
  }

  /** When a detail page can be read, and what the record then holds. */
  lemma ScriptRecordReads(site: Site, municipality: string)
    ensures var page := PageAt(site, MunicipalityPageUrl(municipality));
      var r := ScriptRecord(site, municipality);
      && (r.Ok? <==>
            && page.timestamps.Some? && |page.timestamps.value| >= 3
            && ':' in page.timestamps.value[0] && ':' in page.timestamps.value[1]
            && ':' in page.timestamps.value[2]
            && page.customerInformation.Some? && page.lastUpdated.Some?)
      && (r.Ok? ==>
            && Ok(r.value.startTime) == Field(page.timestamps.value[0])
            && Ok(r.value.endTime) == Field(page.timestamps.value[1])
            && r.value.infoText == page.customerInformation.value
            && r.value.lastUpdate == page.lastUpdated.value)
  {
  }

  /** The exception an unreadable detail page raises, in the script's order:
      no timestamp container (NoSuchElement), a missing line or a line
      without a colon (IndexError), then a missing note or update stamp
      (NoSuchElement). */
  lemma ScriptRecordErrors(site: Site, municipality: string)
    ensures var page := PageAt(site, MunicipalityPageUrl(municipality));
      var r := ScriptRecord(site, municipality);
      && (page.timestamps.None? ==> r == Err(NoSuchElement))
      && (page.timestamps.Some? ==>
            var divs := page.timestamps.value;
            && ((|divs| < 3 || ':' !in divs[0] || ':' !in divs[1] || ':' !in divs[2]) ==>
                  r == Err(IndexError))
            && ((&& |divs| >= 3 && ':' in divs[0] && ':' in divs[1] && ':' in divs[2]
                 && (page.customerInformation.None? || page.lastUpdated.None?)) ==>
                  r == Err(NoSuchElement)))
  {
  }

  function ScriptDetailStep(site: Site): string -> Result<ScriptOutage> {
    municipality => ScriptRecord(site, municipality)
  }

  /** The loop over the municipalities (lines 74-138). */
  function ScriptOutageScan(site: Site, municipalities: seq<string>): Scan<ScriptOutage> {
    Collect(Map(ScriptDetailStep(site), municipalities))
  }

  /** The whole script: the file's content, or the exception that ended the
      program before line 146 was reached. */
  function ScriptRun(site: Site): Result<ScriptSnapshot> {
    var counties :- ScriptCounties(site);
    var municipalities :- Finished(ScriptMunicipalityScan(site, counties));
    var outages :- Finished(ScriptOutageScan(site, municipalities));
    Ok(ScriptSnapshot(outages))
  }

  /** A finished run writes one record per municipality, each read from that
      municipality's own page. */
  lemma ScriptRunRecords(site: Site)
    requires ScriptRun(site).Ok?
    ensures var ms := Finished(ScriptMunicipalityScan(site, ScriptCounties(site).value)).value;
      var os := ScriptRun(site).value.outages;
      && |os| == |ms|
      && forall i :: 0 <= i < |os| ==> ScriptRecord(site, ms[i]) == Ok(os[i])
  {
    var ms := Finished(ScriptMunicipalityScan(site, ScriptCounties(site).value)).value;
    CollectItems(Map(ScriptDetailStep(site), ms));
  }

  /** One of the script's row loops, with a row's test written out as Python
      evaluates it. */
  method ReadKeptNames(rows: seq<Row>, naming: string -> string) returns (r: Result<seq<string>>)
    ensures r == KeptNames(rows, naming)
  {
    var names: seq<string> := [];
    var i := 0;
    while i < |rows|
      invariant 0 <= i <= |rows|
      invariant KeptNames(rows[..i], naming) == Ok(names)
    {
      assert rows[..i + 1][..i] == rows[..i];
      var cells := rows[i];
      var first := At(cells, 1);
      if first.Err? {
        KeptNamesStops(rows, naming, i + 1);
        return Err(first.error);
      }
      var keep := first.value != "0";
      if !keep {
        var second := At(cells, 2);
        if second.Err? {
          KeptNamesStops(rows, naming, i + 1);
          return Err(second.error);
        }
        keep := second.value != "0";
      }
      if keep {
        names := names + [naming(cells[0])];
      }
      i := i + 1;
    }
    assert rows[..i] == rows;
    return Ok(names);
  }

  /** Lines 27-49: the root table, its two pops, and the county loop. */
  method CountiesWithOutage(site: Site) returns (r: Result<seq<string>>)
    ensures r == ScriptCounties(site)
  {
    var rows := TableRows(PageAt(site, RootUrl));
    if rows.Err? {
      return Err(rows.error);
    }
    r := ReadKeptNames(rows.value, ScriptCountyId);
  }

  /** Lines 54-70: each county's listing, its two pops, and its row loop. */
  method MunicipalitiesWithOutage(site: Site, counties: seq<string>) returns (r: Result<seq<string>>)
    ensures r == Finished(ScriptMunicipalityScan(site, counties))
  {
    ghost var results := Map(ScriptListingStep(site), counties);
    var municipalities: seq<string> := [];
    var i := 0;
    while i < |counties|
      invariant 0 <= i <= |counties|
      invariant CollectAll(results[..i]) == Scan(municipalities, None)
    {
      CollectAllStep(results, i);
      var rows := TableRows(PageAt(site, CountyPageUrl(counties[i])));
      if rows.Err? {
        assert results[i] == Err(rows.error);
        CollectAllStops(results, i + 1);
        return Err(rows.error);
      }
      var names := ReadKeptNames(rows.value, Lower);
      assert results[i] == names;
      if names.Err? {
        CollectAllStops(results, i + 1);
        return Err(names.error);
      }
      municipalities := municipalities + names.value;
      i := i + 1;
    }
    assert results[..i] == results;
    return Ok(municipalities);
  }

  /** Lines 74-138: one record per municipality, in order. */
  method OutagesOf(site: Site, municipalities: seq<string>) returns (r: Result<seq<ScriptOutage>>)
    ensures r == Finished(ScriptOutageScan(site, municipalities))
  {
    ghost var results := Map(ScriptDetailStep(site), municipalities);
    var outages: seq<ScriptOutage> := [];
    var i := 0;
    while i < |municipalities|
      invariant 0 <= i <= |municipalities|
      invariant Collect(results[..i]) == Scan(outages, None)
    {
      CollectStep(results, i);
      var record := ScriptRecord(site, municipalities[i]);
      assert results[i] == record;
      if record.Err? {
        CollectStops(results, i + 1);
        return Err(record.error);
      }
      outages := outages + [record.value];
      i := i + 1;
    }
    assert results[..i] == results;
    return Ok(outages);
  }

  /** The script from start to finish: the file is written once, at the end,
      and not at all when an exception ends the program first. */
  method RunScript(site: Site, file: Option<ScriptSnapshot>) returns (written: Option<ScriptSnapshot>, failure: Option<Error>)
    ensures ScriptRun(site).Ok? ==> written == Some(ScriptRun(site).value) && failure == None
    ensures ScriptRun(site).Err? ==> written == file && failure == Some(ScriptRun(site).error)
  {
    written, failure := file, None;
    var counties := CountiesWithOutage(site);
    if counties.Err? {
      failure := Some(counties.error);
      return;
    }
    var municipalities := MunicipalitiesWithOutage(site, counties.value);
    if municipalities.Err? {
      failure := Some(municipalities.error);
      return;
    }
    var outages := OutagesOf(site, municipalities.value);
    if outages.Err? {
      failure := Some(outages.error);
      return;
    }
    written := Some(ScriptSnapshot(outages.value));
  }
}
