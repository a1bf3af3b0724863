/** One crawl cycle of scraper_new.py as values: the counties with an outage,
    their municipalities with an outage, and one record per municipality. The
    class in module Scraper is proved to reach exactly these values. */
module Crawl {
  import opened Wrappers
  import opened PyStr
  import opened Browser
  import opened Table
  import opened Region
  import opened Detail
  import opened Scans

  function NormalizeAll(names: seq<string>): (r: seq<string>)
    ensures |r| == |names|
    ensures forall i :: 0 <= i < |r| ==> ' ' !in r[i]
  {
    seq(|names|, i requires 0 <= i < |names| => NormalizeCounty(names[i]))
  }

  function LowerAll(names: seq<string>): (r: seq<string>)
    ensures |r| == |names|
    ensures forall i :: 0 <= i < |r| ==> IsLower(r[i])
  {
    seq(|names|, i requires 0 <= i < |names| => Lower(names[i]))
  }

  /** Level one: the identifiers of the counties whose row on the root page
      shows an outage, in row order. */
  function Counties(site: Site): (r: Result<seq<string>>)
    ensures r.Ok? ==> forall i :: 0 <= i < |r.value| ==> ' ' !in r.value[i]
  {
    var rows :- TableRows(PageAt(site, RootUrl));
    var names :- PlaceNamesWithOutage(rows);
    Ok(NormalizeAll(names))
  }

  /** On a well-formed root page the counties are the identifiers of exactly
      the outage rows, in row order. */
  lemma CountiesAreOutageRows(site: Site)
    requires TableRows(PageAt(site, RootUrl)).Ok?
    requires AllHaveThreeCells(TableRows(PageAt(site, RootUrl)).value)
    ensures var kept := OutageRows(TableRows(PageAt(site, RootUrl)).value);
      Counties(site) == Ok(seq(|kept|, i requires 0 <= i < |kept| => CountyId(kept[i][0])))
  {
    var rows := TableRows(PageAt(site, RootUrl)).value;
    PlaceNamesAreOutageRows(rows);
    var kept := OutageRows(rows);
    var names := RelabelledNames(kept);
    assert PlaceNamesWithOutage(rows) == Ok(names);
    assert Counties(site) == Ok(NormalizeAll(names));
    var expected := seq(|kept|, i requires 0 <= i < |kept| => CountyId(kept[i][0]));
    assert forall i :: 0 <= i < |kept| ==> NormalizeAll(names)[i] == expected[i];
    assert NormalizeAll(names) == expected;
  }

  /** Level two for one county: the lower-cased names of the municipalities
      whose row on that county's listing shows an outage. */
  function CountyMunicipalities(site: Site, county: string): (r: Result<seq<string>>)
    ensures r.Ok? ==> forall i :: 0 <= i < |r.value| ==> IsLower(r.value[i])
  {
    var rows :- TableRows(PageAt(site, CountyPageUrl(county)));
    var names :- PlaceNamesWithOutage(rows);
    Ok(LowerAll(names))
  }

  /** On a listing whose rows have three cells, a county's municipalities
      are the lower-cased, relabelled names of exactly its outage rows, one
      each, in row order. */
  lemma CountyMunicipalitiesAreOutageRows(site: Site, county: string)
    requires TableRows(PageAt(site, CountyPageUrl(county))).Ok?
    requires AllHaveThreeCells(TableRows(PageAt(site, CountyPageUrl(county))).value)
    ensures var kept := OutageRows(TableRows(PageAt(site, CountyPageUrl(county))).value);
      CountyMunicipalities(site, county)
        == Ok(seq(|kept|, i requires 0 <= i < |kept| => Lower(Relabel(kept[i][0]))))
  {
    var rows := TableRows(PageAt(site, CountyPageUrl(county))).value;
    PlaceNamesAreOutageRows(rows);
    var kept := OutageRows(rows);
    var names := RelabelledNames(kept);
    assert CountyMunicipalities(site, county) == Ok(LowerAll(names));
    var expected := seq(|kept|, i requires 0 <= i < |kept| => Lower(Relabel(kept[i][0])));
    assert forall i :: 0 <= i < |kept| ==> LowerAll(names)[i] == expected[i];
    assert LowerAll(names) == expected;
  }

  /** Level two as a step of the loop over the counties. */
  function ListingStep(site: Site): string -> Result<seq<string>> {
    county => CountyMunicipalities(site, county)
  }

  /** The loop of GetMunicipalitiesWithOutage over the given counties: each
      county's municipalities, county after county, until a listing fails. */
  function MunicipalityScan(site: Site, counties: seq<string>): (r: Scan<string>)
  {
    CollectAll(Map(ListingStep(site), counties))
  }

  /** Every collected municipality name is lower-case. */
  lemma {:induction false} MunicipalityScanIsLower(site: Site, counties: seq<string>)
    ensures var r := MunicipalityScan(site, counties);
      forall i :: 0 <= i < |r.items| ==> IsLower(r.items[i])
    decreases |counties|
  {
    if counties != [] {
      var init := counties[..|counties| - 1];
      var rs := Map(ListingStep(site), counties);
      MapPrefix(ListingStep(site), counties, |init|);
      MunicipalityScanIsLower(site, init);
      var before := CollectAll(rs[..|rs| - 1]);
      assert before == MunicipalityScan(site, init);
      var last := CountyMunicipalities(site, counties[|counties| - 1]);
      assert rs[|rs| - 1] == last;
      if before.failure.None? && last.Ok? {
        var items := before.items + last.value;
        assert MunicipalityScan(site, counties).items == items;
        assert forall i :: 0 <= i < |items| ==> IsLower(items[i]) by {
          forall i | 0 <= i < |items| ensures IsLower(items[i]) {
            if i >= |before.items| {
              assert items[i] == last.value[i - |before.items|];
            } else {
              assert items[i] == before.items[i];
            }
          }
        }
      }
    }
  }

  /** One more county in the loop of GetMunicipalitiesWithOutage. */
  lemma MunicipalityScanStep(site: Site, counties: seq<string>, i: nat)
    requires i < |counties|
    ensures var before := MunicipalityScan(site, counties[..i]);
      var listing := CountyMunicipalities(site, counties[i]);
      MunicipalityScan(site, counties[..i + 1]) ==
        if before.failure.Some? then before
        else if listing.Err? then Scan(before.items, Some(listing.error))
        else Scan(before.items + listing.value, None)
  {
    var f := ListingStep(site);
    assert counties[..i + 1] == counties[..i] + [counties[i]];
    MapConcat(f, counties[..i], [counties[i]]);
    assert Map(f, [counties[i]]) == [f(counties[i])];
    CollectAllSnoc(Map(f, counties[..i]), f(counties[i]));
  }

  /** Once a county's listing fails, the counties after it are not visited. */
  lemma MunicipalityScanStops(site: Site, counties: seq<string>, k: nat)
    requires k <= |counties| && MunicipalityScan(site, counties[..k]).failure.Some?
    ensures MunicipalityScan(site, counties) == MunicipalityScan(site, counties[..k])
  {
    MapPrefix(ListingStep(site), counties, k);
    CollectAllStops(Map(ListingStep(site), counties), k);
  }

  /** County-then-row order: scanning `a + b` collects a's municipalities,
      then b's. */
  lemma MunicipalityScanConcat(site: Site, a: seq<string>, b: seq<string>)
    requires MunicipalityScan(site, a).failure.None?
    ensures MunicipalityScan(site, a + b)
      == Scan(MunicipalityScan(site, a).items + MunicipalityScan(site, b).items,
              MunicipalityScan(site, b).failure)
  {
    MapConcat(ListingStep(site), a, b);
    CollectAllConcat(Map(ListingStep(site), a), Map(ListingStep(site), b));
  }

  /** Level three for one municipality: its detail page read into a record. */
  function OutageRecord(site: Site, municipality: string): Result<Outage>
  {
    var page := PageAt(site, MunicipalityPageUrl(municipality));
    var divs :- FindTimestampDivs(page);
    var info :- ExtractOutageInfo(divs, page);
    Ok(CreateOutageDict(municipality, info.startTime, info.endTime,
                        info.infoText, info.lastUpdate, info.affectedCustomers))
  }

  /** A record names its municipality, and there is one exactly when the
      detail page has its timestamp divs and they are readable. */
  lemma OutageRecordReadable(site: Site, municipality: string)
    ensures var r := OutageRecord(site, municipality);
      var page := PageAt(site, MunicipalityPageUrl(municipality));
      && (r.Ok? ==> r.value.municipality == municipality)
      && (r.Ok? <==> page.timestamps.Some? && DetailsReadable(page.timestamps.value, page))
  {
    var page := PageAt(site, MunicipalityPageUrl(municipality));
    if page.timestamps.Some? {
      ExtractOutageInfoFields(page.timestamps.value, page);
    }
  }

  /** Level three as a step of the loop over the municipalities. */
  function DetailStep(site: Site): string -> Result<Outage> {
    municipality => OutageRecord(site, municipality)
  }

  /** The loop of GetOutages: one record per municipality, in order, until a
      detail page fails. */
  function OutageScan(site: Site, municipalities: seq<string>): (r: Scan<Outage>)
    ensures r.failure.None? ==> |r.items| == |municipalities|
    ensures r.failure.Some? ==> |r.items| < |municipalities|
  {
    Collect(Map(DetailStep(site), municipalities))
  }

  /** The scanned records are those of the first municipalities, in order,
      and a failure is the exception of the next municipality's page. */
  lemma OutageScanRecords(site: Site, municipalities: seq<string>)
    ensures var r := OutageScan(site, municipalities);
      && (r.failure.Some? ==> OutageRecord(site, municipalities[|r.items|]) == Err(r.failure.value))
      && forall i :: 0 <= i < |r.items| ==> OutageRecord(site, municipalities[i]) == Ok(r.items[i])
  {
    CollectItems(Map(DetailStep(site), municipalities));
  }

  /** One more municipality in the loop of GetOutages. */
  lemma OutageScanStep(site: Site, municipalities: seq<string>, i: nat)
    requires i < |municipalities|
    ensures var before := OutageScan(site, municipalities[..i]);
      var record := OutageRecord(site, municipalities[i]);
      OutageScan(site, municipalities[..i + 1]) ==
        if before.failure.Some? then before
        else if record.Err? then Scan(before.items, Some(record.error))
        else Scan(before.items + [record.value], None)
  {
    var f := DetailStep(site);
    assert municipalities[..i + 1] == municipalities[..i] + [municipalities[i]];
    MapConcat(f, municipalities[..i], [municipalities[i]]);
    assert Map(f, [municipalities[i]]) == [f(municipalities[i])];
    CollectSnoc(Map(f, municipalities[..i]), f(municipalities[i]));
  }

  /** Once a detail page fails, the municipalities after it are not visited. */
  lemma OutageScanStops(site: Site, municipalities: seq<string>, k: nat)
    requires k <= |municipalities| && OutageScan(site, municipalities[..k]).failure.Some?
    ensures OutageScan(site, municipalities) == OutageScan(site, municipalities[..k])
  {
    MapPrefix(DetailStep(site), municipalities, k);
    CollectStops(Map(DetailStep(site), municipalities), k);
  }

  /** The three lists as a cycle leaves them. */
  datatype CycleState = CycleState(
    counties: seq<string>, municipalities: seq<string>, outages: seq<Outage>)

  /** A cycle's final lists and the exception that ended it, if any. */
  datatype CycleRun = CycleRun(state: CycleState, failure: Option<Error>)

  const EmptyState := CycleState([], [], [])

  /** One cycle from empty lists: the three levels in order; an exception
      leaves the lists as far as they were filled. */
  function Cycle(site: Site): (r: CycleRun)
    ensures r.failure.None? ==> |r.state.outages| == |r.state.municipalities|
  {
    match Counties(site)
    case Err(e) => CycleRun(EmptyState, Some(e))
    case Ok(counties) =>
      var ms := MunicipalityScan(site, counties);
      if ms.failure.Some? then CycleRun(CycleState(counties, ms.items, []), ms.failure)
      else
        var os := OutageScan(site, ms.items);
        CycleRun(CycleState(counties, ms.items, os.items), os.failure)
  }

  /** A cycle that finishes holds one record per municipality, in the same
      order, each read from that municipality's detail page. */
  lemma CycleRecordsAlign(site: Site)
    requires Cycle(site).failure.None?
    ensures var st := Cycle(site).state;
      forall i :: 0 <= i < |st.outages| ==>
        st.outages[i].municipality == st.municipalities[i]
        && OutageRecord(site, st.municipalities[i]) == Ok(st.outages[i])
  {
    var ms := MunicipalityScan(site, Counties(site).value);
    OutageScanRecords(site, ms.items);
  }

  /** A root page with no outage row gives an empty snapshot, and no detail
      page is read. */
  lemma QuietCycle(site: Site)
    requires Counties(site) == Ok([])
    ensures Cycle(site) == CycleRun(EmptyState, None)
  {
  }

  /** One unreadable detail page ends the cycle: there is no skipping a
      municipality and carrying on. */
  lemma UnreadableDetailEndsCycle(site: Site, k: nat)
    requires Counties(site).Ok?
    requires var ms := MunicipalityScan(site, Counties(site).value);
      ms.failure.None? && k < |ms.items| && OutageRecord(site, ms.items[k]).Err?
    ensures Cycle(site).failure.Some?
    ensures |Cycle(site).state.outages| <= k
  {
    var ms := MunicipalityScan(site, Counties(site).value);
    OutageScanRecords(site, ms.items);
  }

  /** The run interval RunScraper settles on: at least 60 seconds. */
  function EffectiveInterval(interval: int): (r: int)
    ensures r >= 60
    ensures interval >= 60 ==> r == interval
    ensures interval < 60 ==> r == 60
  {
    if interval < 60 then 60 else interval
  }

  /** What a run of RunScraper has done so far: the content of outdata.json,
      the number of cycles that finished, and the exception that ended the
      run, if any. */
  datatype RunOutcome = RunOutcome(file: Option<Snapshot>, cycles: nat, failure: Option<Error>)

  /** Consecutive cycles starting from the file `file`: each finished cycle
      overwrites the file with its own snapshot; the first exception ends the
      run and leaves the file as the last finished cycle wrote it. */
  function RunsOf(file: Option<Snapshot>, runs: seq<CycleRun>): (r: RunOutcome)
    ensures r.cycles <= |runs|
    ensures r.failure.None? ==> r.cycles == |runs|
    ensures r.failure.Some? ==> r.cycles < |runs| && runs[r.cycles].failure == r.failure
    ensures forall k :: 0 <= k < r.cycles ==> runs[k].failure.None?
    ensures r.cycles == 0 ==> r.file == file
    ensures r.cycles > 0 ==> r.file == Some(Snapshot(runs[r.cycles - 1].state.outages))
    decreases |runs|
  {
    if runs == [] then RunOutcome(file, 0, None)
    else
      var before := RunsOf(file, runs[..|runs| - 1]);
      if before.failure.Some? then before
      else
        var run := runs[|runs| - 1];
        if run.failure.Some? then RunOutcome(before.file, before.cycles, run.failure)
        else RunOutcome(Some(Snapshot(run.state.outages)), before.cycles + 1, None)
  }

  /** One more cycle of RunScraper's loop. */
  lemma RunsOfStep(file: Option<Snapshot>, runs: seq<CycleRun>, i: nat)
    requires i < |runs|
    ensures var before := RunsOf(file, runs[..i]);
      RunsOf(file, runs[..i + 1]) ==
        if before.failure.Some? then before
        else if runs[i].failure.Some? then RunOutcome(before.file, before.cycles, runs[i].failure)
        else RunOutcome(Some(Snapshot(runs[i].state.outages)), before.cycles + 1, None)
  {
    assert runs[..i + 1][..i] == runs[..i];
  }

  /** The first exception ends the run: later cycles do not happen. */
  lemma {:induction false} RunsOfStops(file: Option<Snapshot>, runs: seq<CycleRun>, k: nat)
    requires k <= |runs| && RunsOf(file, runs[..k]).failure.Some?
    ensures RunsOf(file, runs) == RunsOf(file, runs[..k])
    decreases |runs| - k
  {
    if k < |runs| {
      var init := runs[..|runs| - 1];
      assert init[..k] == runs[..k];
      RunsOfStops(file, init, k);
    } else {
      assert runs[..k] == runs;
    }
  }
}
