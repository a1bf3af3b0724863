/** The class EllevioScraper of scraper_new.py. The browser session is the
    `site` each method is given: navigating to a URL shows `PageAt(site, url)`.
    The file outdata.json is the field OutData. */
module Scraper {
  import opened Wrappers
  import opened PyList
  import opened Browser
  import opened Table
  import opened Region
  import opened Detail
  import opened Scans
  import opened Crawl

  class EllevioScraper {
    var CountiesWithOutage: seq<string>
    var MunicipalitiesWithOutage: seq<string>
    var Outages: seq<Outage>
    /** The content of outdata.json: None while no cycle has written it. */
    var OutData: Option<Snapshot>

    /** The three lists together, as a cycle leaves them. */
    ghost function Lists(): CycleState
      reads this
    {
      CycleState(CountiesWithOutage, MunicipalitiesWithOutage, Outages)
    }

    /** A scraper with empty lists, started beside the file as it is. */
    constructor(file: Option<Snapshot>)
      ensures CountiesWithOutage == [] && MunicipalitiesWithOutage == [] && Outages == []
      ensures OutData == file
    {
      CountiesWithOutage := [];
      MunicipalitiesWithOutage := [];
      Outages := [];
      OutData := file;
    }

    /** `rows.pop(0)` then `rows.pop(len(rows) - 1)` on a table's rows. */
    method PopHeaderAndTotal(rows: seq<Row>) returns (r: Result<seq<Row>>)
      ensures |rows| >= 2 ==> r == Ok(rows[1..|rows| - 1])
      ensures |rows| < 2 ==> r == Err(IndexError)
    {
      var rest := rows;
      var header := Pop(rest, 0);
      if header.Err? {
        return Err(header.error);
      }
      rest := header.value.1;
      assert rest == rows[1..];
      var total := Pop(rest, |rest| - 1);
      if total.Err? {
        return Err(total.error);
      }
      assert total.value.1 == rest[..|rest| - 1] == rows[1..|rows| - 1];
      rest := total.value.1;
      return Ok(rest);
    }

    /** `__GetCountyTableRows`: the data rows of the root page's table. */
    method GetCountyTableRows(site: Site) returns (r: Result<seq<Row>>)
      ensures r == TableRows(PageAt(site, RootUrl))
    {
      var table := FindLocationRows(PageAt(site, RootUrl));
      if table.Err? {
        return Err(table.error);
      }
      r := PopHeaderAndTotal(table.value);
    }

    /** `__GetPlaceNameWithOutages`: the accumulator loop over the rows. */
    method GetPlaceNameWithOutages(rows: seq<Row>) returns (r: Result<seq<string>>)
      ensures r == PlaceNamesWithOutage(rows)
    {
      var rowsWithOutages: seq<string> := [];
      var i := 0;
      while i < |rows|
        invariant 0 <= i <= |rows|
        invariant PlaceNamesWithOutage(rows[..i]) == Ok(rowsWithOutages)
      {
        assert rows[..i + 1][..i] == rows[..i];
        var cells := rows[i];
        var name := At(cells, 0);
        var first := At(cells, 1);
        var second := At(cells, 2);
        if second.Err? {
          assert !AllHaveThreeCells(rows);
          return Err(IndexError);
        }
        if first.value != "0" || second.value != "0" {
          rowsWithOutages := rowsWithOutages + [Relabel(name.value)];
        }
        i := i + 1;
      }
      assert rows[..i] == rows;
      return Ok(rowsWithOutages);
    }

    /** `GetCountiesWithOutage`: the county identifiers appended to the list;
        an exception before the loop leaves the list as it was. */
    method GetCountiesWithOutage(site: Site) returns (failure: Option<Error>)
      modifies this
      ensures Counties(site).Ok? ==>
        failure == None && CountiesWithOutage == old(CountiesWithOutage) + Counties(site).value
      ensures Counties(site).Err? ==>
        failure == Some(Counties(site).error) && CountiesWithOutage == old(CountiesWithOutage)
      ensures MunicipalitiesWithOutage == old(MunicipalitiesWithOutage)
      ensures Outages == old(Outages) && OutData == old(OutData)
    {
      var rows := GetCountyTableRows(site);
      if rows.Err? {
        return Some(rows.error);
      }
      var names := GetPlaceNameWithOutages(rows.value);
      if names.Err? {
        return Some(names.error);
      }
      for j := 0 to |names.value|
        invariant CountiesWithOutage == old(CountiesWithOutage) + NormalizeAll(names.value)[..j]
        invariant MunicipalitiesWithOutage == old(MunicipalitiesWithOutage)
        invariant Outages == old(Outages) && OutData == old(OutData)
      {
        var county := NormalizeCounty(names.value[j]);
        CountiesWithOutage := CountiesWithOutage + [county];
        assert NormalizeAll(names.value)[..j + 1] == NormalizeAll(names.value)[..j] + [county];
      }
      assert NormalizeAll(names.value)[..|names.value|] == NormalizeAll(names.value);
      return None;
    }

    /** One county's listing, as the body of GetMunicipalitiesWithOutage's
        loop reads it. */
    method GetCountyMunicipalities(site: Site, county: string) returns (r: Result<seq<string>>)
      ensures r == CountyMunicipalities(site, county)
    {
      var table := FindLocationRows(PageAt(site, CountyPageUrl(county)));
      if table.Err? {
        return Err(table.error);
      }
      var rows := PopHeaderAndTotal(table.value);
      if rows.Err? {
        return Err(rows.error);
      }
      var names := GetPlaceNameWithOutages(rows.value);
      if names.Err? {
        return Err(names.error);
      }
      return Ok(LowerAll(names.value));
    }

    /** The inner loop of GetMunicipalitiesWithOutage: one county's names
        appended to the list, in order. */
    method AppendMunicipalities(names: seq<string>)
      modifies this
      ensures MunicipalitiesWithOutage == old(MunicipalitiesWithOutage) + names
      ensures CountiesWithOutage == old(CountiesWithOutage)
      ensures Outages == old(Outages) && OutData == old(OutData)
    {
      for j := 0 to |names|
        invariant MunicipalitiesWithOutage == old(MunicipalitiesWithOutage) + names[..j]
        invariant CountiesWithOutage == old(CountiesWithOutage)
        invariant Outages == old(Outages) && OutData == old(OutData)
      {
        MunicipalitiesWithOutage := MunicipalitiesWithOutage + [names[j]];
        assert names[..j + 1] == names[..j] + [names[j]];
      }
      assert names[..|names|] == names;
    }

    /** `GetMunicipalitiesWithOutage`: for each county in order, its
        municipalities appended; the first failing listing ends the loop. */
    method GetMunicipalitiesWithOutage(site: Site) returns (failure: Option<Error>)
      modifies this
      ensures var scan := MunicipalityScan(site, old(CountiesWithOutage));
        MunicipalitiesWithOutage == old(MunicipalitiesWithOutage) + scan.items
        && failure == scan.failure
      ensures CountiesWithOutage == old(CountiesWithOutage)
      ensures Outages == old(Outages) && OutData == old(OutData)
    {
      var counties := CountiesWithOutage;
      var i := 0;
      while i < |counties|
        invariant 0 <= i <= |counties|
        invariant CountiesWithOutage == counties == old(CountiesWithOutage)
        invariant Outages == old(Outages) && OutData == old(OutData)
        invariant MunicipalityScan(site, counties[..i]).failure.None?
        invariant MunicipalitiesWithOutage
          == old(MunicipalitiesWithOutage) + MunicipalityScan(site, counties[..i]).items
      {
        MunicipalityScanStep(site, counties, i);
        var listing := GetCountyMunicipalities(site, counties[i]);
        if listing.Err? {
          MunicipalityScanStops(site, counties, i + 1);
          return Some(listing.error);
        }
        AppendMunicipalities(listing.value);
        i := i + 1;
      }
      assert counties[..i] == counties;
      return None;
    }

    /** `__AcceptCookies`: clicks the consent button when the page shows one;
        when it does not, the NoSuchElementException is caught, so the step
        never raises. */
    method AcceptCookies(page: Page) returns (clicked: bool)
      ensures clicked <==> page.cookieButton
    {
      clicked := page.cookieButton;
    }

    /** One municipality's detail page, as the body of GetOutages's loop
        reads it. */
    method GetOutage(site: Site, municipality: string) returns (r: Result<Outage>)
      ensures r == OutageRecord(site, municipality)
    {
      var page := PageAt(site, MunicipalityPageUrl(municipality));
      var clicked := AcceptCookies(page);
      var divs := FindTimestampDivs(page);
      if divs.Err? {
        return Err(divs.error);
      }
      var info := ExtractOutageInfo(divs.value, page);
      if info.Err? {
        return Err(info.error);
      }
      var i := info.value;
      return Ok(CreateOutageDict(municipality, i.startTime, i.endTime, i.infoText, i.lastUpdate, i.affectedCustomers));
    }

    /** `GetOutages`: one record appended per municipality, in order; the first
        unreadable detail page ends the loop. */
    method GetOutages(site: Site) returns (failure: Option<Error>)
      modifies this
      ensures var scan := OutageScan(site, old(MunicipalitiesWithOutage));
        Outages == old(Outages) + scan.items && failure == scan.failure
      ensures CountiesWithOutage == old(CountiesWithOutage)
      ensures MunicipalitiesWithOutage == old(MunicipalitiesWithOutage)
      ensures OutData == old(OutData)
    {
      var municipalities := MunicipalitiesWithOutage;
      ghost var results := Map(DetailStep(site), municipalities);
      var i := 0;
      while i < |municipalities|
        invariant 0 <= i <= |municipalities|
        invariant MunicipalitiesWithOutage == municipalities == old(MunicipalitiesWithOutage)
        invariant CountiesWithOutage == old(CountiesWithOutage) && OutData == old(OutData)
        invariant Collect(results[..i]).failure.None?
        invariant Outages == old(Outages) + Collect(results[..i]).items
      {
        CollectStep(results, i);
        var record := GetOutage(site, municipalities[i]);
        assert results[i] == record;
        if record.Err? {
          CollectStops(results, i + 1);
          return Some(record.error);
        }
        Outages := Outages + [record.value];
        i := i + 1;
      }
      assert results[..i] == results;
      return None;
    }

    /** `SaveOutagesToFile`: the file is opened for writing, not appending, so
        it holds exactly `{"outages": Outages}` afterwards. */
    method SaveOutagesToFile()
      modifies this
      ensures OutData == Some(Snapshot(Outages))
      ensures CountiesWithOutage == old(CountiesWithOutage)
      ensures MunicipalitiesWithOutage == old(MunicipalitiesWithOutage)
      ensures Outages == old(Outages)
    {
      OutData := Some(Snapshot(Outages));
    }

    /** One pass of RunScraper's `while` loop: the reset, the three levels and
        the save. An exception propagates at once, so the file is written only
        by a cycle that finishes, and then holds that cycle's records only. */
    method RunCycle(site: Site) returns (failure: Option<Error>)
      modifies this
      ensures var run := Cycle(site);
        && CountiesWithOutage == run.state.counties
        && MunicipalitiesWithOutage == run.state.municipalities
        && Outages == run.state.outages
        && failure == run.failure
      ensures OutData == if failure.None? then Some(Snapshot(Outages)) else old(OutData)
      ensures Lists() == Cycle(site).state
    {
      CountiesWithOutage := [];
      MunicipalitiesWithOutage := [];
      Outages := [];
      failure := GetCountiesWithOutage(site);
      if failure.Some? {
        return;
      }
      failure := GetMunicipalitiesWithOutage(site);
      if failure.Some? {
        return;
      }
      failure := GetOutages(site);
      if failure.Some? {
        return;
      }
      SaveOutagesToFile();
    }

    /** `RunScraper`, for the cycles that see the site as `sites[0]`,
        `sites[1]`, ...: the interval is clamped to at least 60 seconds (with a
        warning exactly when it was lower), then cycles run until one raises. */
    method RunScraper(interval: int, sites: seq<Site>)
      returns (effective: int, warned: bool, completed: nat, failure: Option<Error>)
      modifies this
      ensures effective == EffectiveInterval(interval)
      ensures warned <==> interval < 60
      ensures var r := RunsOf(old(OutData), Map(Cycle, sites));
        OutData == r.file && completed == r.cycles && failure == r.failure
      ensures failure.Some? ==> Lists() == Cycle(sites[completed]).state
      ensures failure.None? && |sites| > 0 ==> Lists() == Cycle(sites[|sites| - 1]).state
      ensures |sites| == 0 ==> Lists() == old(Lists())
    {
      effective := interval;
      warned := false;
      if effective < 60 {
        effective := 60;
        warned := true;
      }
      ghost var file := OutData;
      ghost var runs := Map(Cycle, sites);
      completed := 0;
      while completed < |sites|
        invariant completed <= |sites|
        invariant RunsOf(file, runs[..completed]) == RunOutcome(OutData, completed, None)
        invariant completed > 0 ==> Lists() == runs[completed - 1].state
        invariant completed == 0 ==> Lists() == old(Lists())
      {
        RunsOfStep(file, runs, completed);
        failure := RunCycle(sites[completed]);
        assert runs[completed] == Cycle(sites[completed]);
        if failure.Some? {
          RunsOfStops(file, runs, completed + 1);
          return;
        }
        completed := completed + 1;
      }
      assert runs[..completed] == runs;
      assert completed > 0 ==> runs[completed - 1] == Cycle(sites[|sites| - 1]);
      failure := None;
    }
  }
}
