/** How scraper.py and scraper_new.py differ on the same site: the county
    identifiers, the row test, the municipality names and the record. */
module Compare {
  import opened Wrappers
  import opened PyStr
  import opened Browser
  import opened Table
  import opened Region
  import opened Detail
  import opened Crawl
  import opened Script

  /** Removing trailing `c`s ignores any `c`s appended first. */
  lemma {:induction false} RStripRepeat(x: string, c: char, k: nat)
    ensures RStrip(x + Repeat(c, k), c) == RStrip(x, c)
    decreases k
  {
    if k == 0 {
      assert x + Repeat(c, 0) == x;
    } else {
      var s := x + Repeat(c, k);
      assert s[..|s| - 1] == x + Repeat(c, k - 1);
      RStripRepeat(x, c, k - 1);
    }
  }

  lemma LowerRepeatS(k: nat)
    ensures Lower(Repeat('s', k)) == Repeat('s', k)
  {
  }

  /** A prefix of a lower-case text is lower-case. */
  lemma LowerOfPrefix(s: string, p: string)
    requires IsLower(s) && p <= s
    ensures Lower(p) == p
  {
    assert forall k :: 0 <= k < |p| ==> p[k] == s[k];
    LowerOfLower(p);
  }

  /** scraper.py lower-cases before it strips the 's's, scraper_new.py after:
      the old identifier is the new normalisation applied to the new
      identifier once more. */
  lemma ScriptCountyIdIsNormalizedTwice(name: string)
    ensures ScriptCountyId(name) == NormalizeCounty(CountyId(name))
  {
    if name == VastraGotalandLabel {
      NormalizeVastraGotaland();
    } else {
      var fw := FirstWord(name);
      var y := RStrip(fw, 's');
      RStripShape(fw, 's');
      var k := |fw| - |y|;
      var n := Lower(y);
      assert CountyId(name) == n;
      LowerConcat(y, Repeat('s', k));
      LowerRepeatS(k);
      assert Lower(fw) == n + Repeat('s', k);
      RStripRepeat(n, 's', k);
      assert ScriptCountyId(name) == RStrip(n, 's');
      LowerKeepsSpaces(y);
      FirstWordOfWord(n);
      RStripShape(n, 's');
      LowerOfPrefix(n, RStrip(n, 's'));
    }
  }

  /** The two identifiers agree exactly when the county's first word, once
      its lower-case 's's are gone, does not end in an upper-case 'S' (or the
      row is the relabelled one). */
  lemma ScriptCountyIdAgrees(name: string)
    ensures ScriptCountyId(name) == CountyId(name)
        <==> name == VastraGotalandLabel || !EndsWithUpperS(RStrip(FirstWord(name), 's'))
  {
    ScriptCountyIdIsNormalizedTwice(name);
    if name != VastraGotalandLabel {
      assert CountyId(name) == NormalizeCounty(name);
      NormalizeTwiceIff(name);
    } else {
      NormalizeVastraGotaland();
    }
  }

  /** A row with only two cells and an outage in the first indicator: the old
      `or` never reads the third cell and keeps the row, the new filter
      reads it and raises IndexError. */
  lemma ShortRowKeptOnlyByScript(name: string, count: string, naming: string -> string)
    requires count != "0"
    ensures KeptNames([[name, count]], naming) == Ok([naming(name)])
    ensures PlaceNamesWithOutage([[name, count]]) == Err(IndexError)
  {
    var rows: seq<Row> := [[name, count]];
    assert rows[..0] == [];
    assert rows[0] == [name, count];
    assert ScriptKeepsRow(rows[0]) == Ok(true);
    assert KeptNames(rows[..0], naming) == Ok([]);
    assert KeptNames(rows, naming) == Ok([] + [naming(rows[0][0])]);
    assert [] + [naming(name)] == [naming(name)];
    assert |rows[0]| < 3;
  }

  /** On a well-formed root table the old county identifiers are the new
      ones normalised once more, in the same order. */
  lemma CountiesCompared(site: Site)
    requires TableRows(PageAt(site, RootUrl)).Ok?
    requires AllHaveThreeCells(TableRows(PageAt(site, RootUrl)).value)
    ensures Counties(site).Ok? && ScriptCounties(site).Ok?
    ensures |ScriptCounties(site).value| == |Counties(site).value|
    ensures forall i :: 0 <= i < |Counties(site).value| ==>
      ScriptCounties(site).value[i] == NormalizeCounty(Counties(site).value[i])
  {
    var rows := TableRows(PageAt(site, RootUrl)).value;
    var kept := OutageRows(rows);
    CountiesAreOutageRows(site);
    KeptNamesOfOutageRows(rows, ScriptCountyId);
    assert ScriptCounties(site) == KeptNames(rows, ScriptCountyId);
    forall i | 0 <= i < |kept|
      ensures ScriptCounties(site).value[i] == NormalizeCounty(Counties(site).value[i])
    {
      ScriptCountyIdIsNormalizedTwice(kept[i][0]);
    }
  }

  /** On a well-formed county listing both scripts list the same rows; a
      name differs exactly where the row is labelled "V Götalands län",
      which only the new filter relabels at this level. */
  lemma ListingsCompared(site: Site, county: string)
    requires TableRows(PageAt(site, CountyPageUrl(county))).Ok?
    requires AllHaveThreeCells(TableRows(PageAt(site, CountyPageUrl(county))).value)
    ensures var kept := OutageRows(TableRows(PageAt(site, CountyPageUrl(county))).value);
      && CountyMunicipalities(site, county).Ok? && ScriptListing(site, county).Ok?
      && |ScriptListing(site, county).value| == |CountyMunicipalities(site, county).value| == |kept|
      && forall i :: 0 <= i < |kept| ==>
           ((ScriptListing(site, county).value[i] == CountyMunicipalities(site, county).value[i])
              <==> kept[i][0] != VastraGotalandLabel)
  {
    var rows := TableRows(PageAt(site, CountyPageUrl(county))).value;
    var kept := OutageRows(rows);
    PlaceNamesAreOutageRows(rows);
    KeptNamesOfOutageRows(rows, Lower);
    var names := RelabelledNames(kept);
    assert CountyMunicipalities(site, county) == Ok(LowerAll(names));
    assert ScriptListing(site, county) == KeptNames(rows, Lower);
    forall i | 0 <= i < |kept|
      ensures (ScriptListing(site, county).value[i] == CountyMunicipalities(site, county).value[i])
              <==> kept[i][0] != VastraGotalandLabel
    {
      assert CountyMunicipalities(site, county).value[i] == Lower(Relabel(kept[i][0]));
      assert ScriptListing(site, county).value[i] == Lower(kept[i][0]);
      assert |VastraGotalandLabel| != |VastraGotalandId|;
    }
  }

  /** The old record is the new one without its count. */
  function WithoutCount(o: Outage): (r: ScriptOutage)
    ensures r.municipality == o.municipality && r.startTime == o.startTime
    ensures r.endTime == o.endTime && r.infoText == o.infoText && r.lastUpdate == o.lastUpdate
  {
    ScriptOutage(o.municipality, o.startTime, o.endTime, o.infoText, o.lastUpdate)
  }

  /** The two detail readers raise the same exception on the same page,
      except that only the new one applies int() to the count, so it alone
      can raise ValueError; when it succeeds the old record is its record
      without the count. */
  lemma RecordsCompared(site: Site, municipality: string)
    ensures OutageRecord(site, municipality).Ok? ==>
      ScriptRecord(site, municipality) == Ok(WithoutCount(OutageRecord(site, municipality).value))
    ensures ScriptRecord(site, municipality).Err? ==>
      OutageRecord(site, municipality) == Err(ScriptRecord(site, municipality).error)
    ensures ScriptRecord(site, municipality).Ok? && OutageRecord(site, municipality).Err? ==>
      OutageRecord(site, municipality).error == ValueError
  {
    var page := PageAt(site, MunicipalityPageUrl(municipality));
    if page.timestamps.Some? {
      ExtractOutageInfoFields(page.timestamps.value, page);
    }
  }
}
