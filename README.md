# Ellevio outage scraper, modelled in Dafny

The repository scrapes Ellevio's outage map with Selenium. The newer
`Ellevio/scraper_new.py` has a class `EllevioScraper` that runs cycles of
three levels:

1. the root page's county table gives the counties with an outage;
2. each county's listing gives its municipalities with an outage;
3. each municipality's detail page gives one outage record.

A cycle ends by writing `{"outages": [...]}` to `outdata.json`. The older
`Ellevio/scraper.py` is a one-shot script that does the same three levels
with top-level loops.

The model replaces the browser with an abstract site: a map from URL to
page. Each page keeps only the elements the scraper reads:

- the location table, as rows of cell texts;
- the texts of the timestamp `div`s;
- the customer note;
- the last-updated stamp;
- whether the cookie button is shown.

A URL the site does not serve shows an empty page. A Selenium lookup that finds
nothing, a `pop`/index past the end and a rejected `int()` are the exceptions
`NoSuchElement`, `IndexError` and `ValueError`. They are returned as `Result`
values in the order Python raises them.

Modules, in dependency order:

- `Wrappers`: Option, Result and the three exception kinds.
- `PyStr`, `PyList`: the Python builtins the code relies on.
  - `PyStr` has `split`, `strip`, `rstrip`, `lower` and `int()`.
  - `PyList` has `pop` and indexing.
- `Browser`: pages, the site map, the three URLs, and the element lookups.
- `Table`: the two pops, the outage filter and the Västra Götaland relabelling.
- `Region`: the county identifier of `GetCountiesWithOutage`.
- `Detail`: field extraction, the customer count and the six-key record.
- `Scans`: the loop shape both scrapers share. Each step maps one list entry
  to a value or a list, and the first exception ends the loop with what was
  appended so far.
- `Crawl`: one cycle of the new scraper as values, and the runs of several
  cycles.
- `Scraper`: the class `EllevioScraper`.
  - It has four fields: the three lists and the file `OutData`.
  - Its methods carry the source's loops, with invariants. Each method is
    proved to leave exactly the state the `Crawl` functions describe.
- `Script`: `scraper.py`, with its own loops as methods and the same
  specification style.
- `Compare`: what the two scrapers do differently on the same site.

Behaviour the code has that is easy to misread, and that the model follows:

- **No error is skipped.** Neither scraper catches anything but the missing
  cookie button, so one unreadable county listing or detail page ends the
  cycle. `GetOutages` stops at that municipality with the records appended so
  far. No file is written; the previous snapshot stays.
- **Short rows raise in the new filter.** The debug log line in
  `__GetPlaceNameWithOutages` (scraper_new.py:64) reads all three cells of
  every row, so a row with fewer than three cells raises `IndexError` even
  when that log level is off. `scraper.py`'s `or` reads the third cell only
  when the second is `"0"`.
- **`rstrip("s")` removes every trailing lower-case `s`.**
  - The new code strips before lower-casing. A first word ending in an
    upper-case `S` keeps it, so normalising twice differs from normalising
    once.
  - The old code lower-cases first. Its identifier is always the new
    normalisation applied a second time (`Compare.ScriptCountyIdIsNormalizedTwice`).
- **The new filter relabels at both levels.** It turns `"V Götalands län"` into
  `"västragötaland"` for municipality rows as well as county rows. The old
  script does this only for counties.
- **A field is the text between the first and second colon.** So a clock
  time `"Start: 12:30"` yields `"12"` (`Detail.FieldOfClockTime`).

## Model

| member | source | states |
|---|---|---|
| `PyStr.IndexOf` | Ellevio/scraper_new.py:188-190 | the first index of a separator, or the length when there is none; nothing before it is the separator |
| `PyStr.Split` | Ellevio/scraper_new.py:188-190 | `split(c)` has at least one piece |
| `PyStr.SplitJoin` | Ellevio/scraper_new.py:188-190 | no piece of a split holds the separator, and joining the pieces with it gives the text back |
| `PyStr.SplitHead` | Ellevio/scraper_new.py:188-190 | the first piece is the text before the first separator; a second piece exists exactly when the separator occurs |
| `PyStr.SplitTail` | Ellevio/scraper_new.py:188-190 | the pieces after the first are the split of the text after the first separator |
| `PyStr.FirstWord` | Ellevio/scraper_new.py:114 | `split(" ")[0]` is a prefix without a space, ending at the first space or the end |
| `PyStr.FirstWordIsSplit` | Ellevio/scraper_new.py:114 | FirstWord equals the first piece of Split on a space |
| `PyStr.FirstWordBefore` | Ellevio/scraper_new.py:114 | the first word of `w + " " + rest` is `w` when `w` has no space |
| `PyStr.FirstWordOfWord` | Ellevio/scraper_new.py:114 | a text without a space is its own first word |
| `PyStr.RStrip` | Ellevio/scraper_new.py:114 | the result is no longer than the text and does not end in `c` |
| `PyStr.RStripShape` | Ellevio/scraper_new.py:114 | `rstrip` only cuts `c`s off the end: the text is the result followed by `c`s |
| `PyStr.RStripNoTrailing` | Ellevio/scraper_new.py:114 | a text not ending in `c` is left unchanged |
| `PyStr.RStripTrailing` | Ellevio/scraper_new.py:114 | a text ending in `c` gets strictly shorter |
| `PyStr.LStrip` | Ellevio/scraper_new.py:188-190 | the result does not start with `c` |
| `PyStr.LStripShape` | Ellevio/scraper_new.py:188-190 | `lstrip` only cuts `c`s off the front |
| `PyStr.Strip` | Ellevio/scraper_new.py:188-190 | the result has no `c` at either end |
| `PyStr.StripShape` | Ellevio/scraper_new.py:188-190 | the text is some `c`s, the stripped text and some more `c`s: only the ends are touched |
| `PyStr.LowerChar` | Ellevio/scraper_new.py:114 | A-Z move up by 32, spaces stay spaces, `s`/`S` both become `s`, other characters outside the table stay |
| `PyStr.LowerCharIdempotent` | Ellevio/scraper_new.py:114 | lower-casing a character twice equals once |
| `PyStr.Lower` | Ellevio/scraper_new.py:114 | `lower()` keeps the length and yields a lower-case text |
| `PyStr.LowerIsLower` | Ellevio/scraper_new.py:114 | `lower()` yields a lower-case text and is idempotent |
| `PyStr.LowerOfLower` | Ellevio/scraper_new.py:114 | a lower-case text is unchanged by `lower()` |
| `PyStr.LowerKeepsSpaces` | Ellevio/scraper_new.py:114 | `lower()` neither adds nor removes spaces |
| `PyStr.LowerConcat` | Ellevio/scraper.py:46 | lower-casing distributes over concatenation |
| `PyStr.ParseInt` | Ellevio/scraper_new.py:201 | `int()` accepts exactly an optional sign and ASCII digits, with their decimal value, and raises ValueError otherwise |
| `PyStr.Show` | Ellevio/scraper_new.py:201 | `str(n)` is a run of digits without a leading zero |
| `PyStr.ParseShow` | Ellevio/scraper_new.py:201 | `int(str(n)) == n` and `int("-" + str(n)) == -n` |
| `PyStr.ShowValue` | Ellevio/scraper_new.py:201 | the digits of `str(n)` denote `n` |
| `PyList.Pop` | Ellevio/scraper_new.py:102-106 | `pop(i)` succeeds exactly for `-len <= i < len` and removes that element; popping the first or last leaves the rest or the front; IndexError otherwise |
| `PyList.PopShape` | Ellevio/scraper_new.py:102-106 | putting the popped element back at its index gives the list again |
| `PyList.At` | Ellevio/scraper_new.py:64 | `xs[i]` is the element when in range and IndexError past the end |
| `Browser.PageAt` | Ellevio/scraper_new.py:86-88 | a GET shows the site's page for that URL, or an empty page when the site has none (defined; no contract) |
| `Browser.CountyPageUrl` | Ellevio/scraper_new.py:127 | the listing URL `COUNTY_URL + county + "/idag"` (defined; distinctness in CountyPageUrlInjective) |
| `Browser.MunicipalityPageUrl` | Ellevio/scraper_new.py:150 | the detail URL `MUNICIPALITY_URL + municipality` (defined; distinctness in MunicipalityPageUrlInjective) |
| `Browser.CountyPageUrlInjective` | Ellevio/scraper_new.py:127 | distinct counties are looked up at distinct `COUNTY_URL + county + "/idag"` pages |
| `Browser.MunicipalityPageUrlInjective` | Ellevio/scraper_new.py:150 | distinct municipalities are looked up at distinct `MUNICIPALITY_URL + municipality` pages |
| `Browser.FindLocationRows` | Ellevio/scraper_new.py:96-100 | the location table's rows, or NoSuchElement when the table is absent |
| `Browser.FindTimestampDivs` | Ellevio/scraper_new.py:167-177 | the divs of the nested timestamp container, or NoSuchElement |
| `Browser.FindText` | Ellevio/scraper_new.py:192-198 | an element's text, or NoSuchElement when it is absent |
| `Table.WithoutHeaderAndTotal` | Ellevio/scraper_new.py:102-106 | the two pops succeed exactly on two or more rows and leave `rows[1..n-1]`; fewer rows raise IndexError |
| `Table.TableRows` | Ellevio/scraper_new.py:90-107 | the data rows of a page's table: NoSuchElement without a table, IndexError below two rows, else all rows but the first and last |
| `Table.TableRowsOfListing` | Ellevio/scraper_new.py:90-107 | a header, n entries and a total row give back exactly the n entries |
| `Table.HasOutage` | Ellevio/scraper_new.py:65 | a row shows an outage when it has three cells and either indicator is not "0" (defined; cases in IndicatorCases) |
| `Table.IndicatorCases` | Ellevio/scraper_new.py:65 | ("0","0") is dropped; ("0","3"), ("5","0") and ("5","3") are kept |
| `Table.Relabel` | Ellevio/scraper_new.py:67-70 | the result is "västragötaland" exactly for the label "V Götalands län" or that identifier itself; every other name passes verbatim |
| `Table.PlaceNamesWithOutage` | Ellevio/scraper_new.py:59-72 | the filter succeeds exactly when every row has three cells (else IndexError) and keeps at most as many names as rows |
| `Table.OutageRows` | Ellevio/scraper_new.py:65 | reference filter: no more rows than given, each showing an outage, and a row is kept exactly when it is given and shows an outage |
| `Table.OutageRowsAppend` | Ellevio/scraper_new.py:62-70 | the filter of `rows + [row]` is the filter of `rows`, plus `row` when it shows an outage |
| `Table.RelabelledNames` | Ellevio/scraper_new.py:67-70 | one relabelled name per given row |
| `Table.PlaceNamesAreOutageRows` | Ellevio/scraper_new.py:59-72 | on rows of three cells the accumulator loop yields exactly the relabelled names of the outage rows, in row order |
| `Region.NormalizeCounty` | Ellevio/scraper_new.py:114 | `split(" ")[0].rstrip("s").lower()` has no space and is no longer than the name |
| `Region.CountyId` | Ellevio/scraper_new.py:67-70 | a county row's identifier (relabel, then normalise) has no space; the Västra Götaland label gives "västragötaland" |
| `Region.NormalizeStockholm` | Ellevio/scraper_new.py:114 | "Stockholms län" becomes "stockholm" |
| `Region.NormalizeVastraGotaland` | Ellevio/scraper_new.py:114 | "västragötaland" is left unchanged |
| `Region.NormalizeIdentifier` | Ellevio/scraper_new.py:114 | a lower-case single word not ending in 's' is its own identifier |
| `Region.NormalizeTwiceIff` | Ellevio/scraper_new.py:114 | normalising twice equals once exactly when the first word, stripped of its trailing 's's, does not end in 'S' |
| `Detail.CreateOutageDictKeys` | Ellevio/scraper_new.py:38-57 | a record has the six keys once each, in order, each bound to the argument of that name, the count as an integer |
| `Detail.CreateOutageDict` | Ellevio/scraper_new.py:38-57 | the six-field record built from the arguments, the count an integer (defined; keys and values in CreateOutageDictKeys) |
| `Detail.Entries` | Ellevio/scraper_new.py:47-54 | the record as JSON object members in insertion order (defined; stated in CreateOutageDictKeys) |
| `Detail.Field` | Ellevio/scraper_new.py:188-190 | a field succeeds exactly when the line has a colon, and raises IndexError otherwise |
| `Detail.FieldIsSplit` | Ellevio/scraper_new.py:188-190 | Field is `split(":")[1].strip(" ")`: the second piece exists exactly when there is a colon, and the field is it stripped |
| `Detail.FieldAfterCaption` | Ellevio/scraper_new.py:188-190 | the field of `caption + ":" + rest` is read from `rest` up to its next colon |
| `Detail.FieldOfClockTime` | Ellevio/scraper_new.py:188-190 | a line `caption: hh:mm` yields only `hh` |
| `Detail.ColonAfterDigits` | Ellevio/scraper_new.py:188-190 | in `" " + digits + ":" + tail` the first colon follows the digits |
| `Detail.StripOneSpace` | Ellevio/scraper_new.py:188-190 | stripping `" " + digits` gives the digits |
| `Detail.CustomerCount` | Ellevio/scraper_new.py:190-201 | the count parses exactly when `int()` accepts the text before the first space (else ValueError), and `str(n)` reads back as `n` |
| `Detail.CustomerCountWithUnit` | Ellevio/scraper_new.py:190-201 | a count followed by a space and a unit, such as "120 st", reads as that count: int() sees only the text before the first space |
| `Detail.ExtractOutageInfo` | Ellevio/scraper_new.py:187-201 | `__ExtractOutageInfo` in Python's order of lookups (defined; stated in ExtractOutageInfoFields and ExtractOutageInfoErrors) |
| `Detail.ExtractOutageInfoFields` | Ellevio/scraper_new.py:187-201 | `ExtractOutageInfo` succeeds exactly when the three lines have colons, both texts exist and the count parses; its fields are then the three fields and the two texts |
| `Detail.ExtractOutageInfoErrors` | Ellevio/scraper_new.py:187-201 | the exception in Python's order: a missing line or a line without a colon gives IndexError, then a missing note or update stamp NoSuchElement, then a count int() rejects ValueError |
| `Crawl.NormalizeAll` | Ellevio/scraper_new.py:113-115 | one identifier per name, none with a space |
| `Crawl.LowerAll` | Ellevio/scraper_new.py:141-142 | one lower-case name per name |
| `Crawl.Counties` | Ellevio/scraper_new.py:109-115 | the county identifiers have no space |
| `Crawl.CountiesAreOutageRows` | Ellevio/scraper_new.py:109-115 | on a root table whose rows have three cells, the counties are the identifiers of exactly the outage rows, one each, in row order |
| `Crawl.CountyMunicipalities` | Ellevio/scraper_new.py:127-142 | a county's municipality names are lower-case |
| `Crawl.CountyMunicipalitiesAreOutageRows` | Ellevio/scraper_new.py:127-142 | on a listing whose rows have three cells, a county's municipalities are the lower-cased, relabelled names of exactly its outage rows, one each, in row order |
| `Crawl.MunicipalityScan` | Ellevio/scraper_new.py:125-142 | the county loop: each county's listing appended in turn, stopping at the first exception (defined; stated by the MunicipalityScan lemmas) |
| `Crawl.MunicipalityScanIsLower` | Ellevio/scraper_new.py:125-142 | every collected municipality name is lower-case |
| `Crawl.MunicipalityScanStep` | Ellevio/scraper_new.py:125-142 | one more county: nothing after a failure, its exception, or its names appended |
| `Crawl.MunicipalityScanStops` | Ellevio/scraper_new.py:125-142 | after a failing listing no later county is visited |
| `Crawl.MunicipalityScanConcat` | Ellevio/scraper_new.py:125-142 | county-then-row order: scanning `a + b` collects a's municipalities, then b's |
| `Crawl.OutageRecord` | Ellevio/scraper_new.py:150-185 | one pass of the GetOutages loop: the detail page read into a record (defined; stated in OutageRecordReadable) |
| `Crawl.OutageRecordReadable` | Ellevio/scraper_new.py:148-185 | `OutageRecord` names its municipality, and a record exists exactly when the detail page's divs exist and are readable |
| `Crawl.OutageScan` | Ellevio/scraper_new.py:148-185 | a finished loop has one record per municipality; a failed one has fewer |
| `Crawl.OutageScanRecords` | Ellevio/scraper_new.py:148-185 | the records are those of the first municipalities in order, and a failure is the next municipality's exception |
| `Crawl.OutageScanStep` | Ellevio/scraper_new.py:149-185 | one more municipality: nothing after a failure, its exception, or its record appended |
| `Crawl.OutageScanStops` | Ellevio/scraper_new.py:149-185 | after an unreadable detail page no later municipality is visited |
| `Crawl.Cycle` | Ellevio/scraper_new.py:238-247 | the three levels from empty lists, each stopping at the first exception; a finished cycle has as many records as municipalities |
| `Crawl.CycleRecordsAlign` | Ellevio/scraper_new.py:148-185 | in a finished cycle record i names municipality i and is read from its page |
| `Crawl.QuietCycle` | Ellevio/scraper_new.py:109-146 | no outage row on the root page gives an empty snapshot and reads no other page |
| `Crawl.UnreadableDetailEndsCycle` | Ellevio/scraper_new.py:148-185 | an unreadable detail page for municipality k makes the cycle fail with at most k records |
| `Crawl.EffectiveInterval` | Ellevio/scraper_new.py:230-234 | the interval is at least 60; values of 60 or more are kept, lower ones become 60 |
| `Crawl.RunsOf` | Ellevio/scraper_new.py:236-250 | cycles run until the first failure; the file holds the last finished cycle's records, or is unchanged when none finished |
| `Crawl.RunsOfStep` | Ellevio/scraper_new.py:236-250 | one more cycle: nothing after a failure, its exception, or its snapshot written |
| `Crawl.RunsOfStops` | Ellevio/scraper_new.py:236-250 | after a failing cycle no later cycle runs |
| `Scans.Map` | Ellevio/scraper_new.py:125-142 | one step result per list entry, in order |
| `Scans.Collect` | Ellevio/scraper_new.py:149-185 | a one-value-per-step loop keeps one value per step until the first failure, and fewer than all values when one fails |
| `Scans.CollectItems` | Ellevio/scraper_new.py:149-185 | the values kept are those of the first steps, in order, and a failure is the exception of the step after them |
| `Scans.CollectAllFailure` | Ellevio/scraper_new.py:125-142 | a failure of a list-per-step loop is the exception of one of its steps |
| `Scans.CollectAllConcat` | Ellevio/scraper_new.py:125-142 | a list-per-step loop over `a + b` appends a's lists, then b's |
| `Scans.CollectAll` | Ellevio/scraper_new.py:125-142 | a loop that appends a list per step and stops at the first step that raises (defined; stated by the CollectAll lemmas) |
| `Scans.Finished` | Ellevio/scraper_new.py:149-185 | a loop's result is its list exactly when no step raised, and that exception otherwise |
| `Scans.CollectStops` | Ellevio/scraper_new.py:149-185 | once a one-value-per-step loop has failed, later steps change nothing |
| `Scans.CollectAllStops` | Ellevio/scraper_new.py:125-142 | once a list-per-step loop has failed, later steps change nothing |
| `Scans.CollectStep` | Ellevio/scraper_new.py:149-185 | one more step of a one-value-per-step loop: unchanged after a failure, else that step's exception or its value appended |
| `Scans.CollectAllStep` | Ellevio/scraper_new.py:125-142 | one more step of a list-per-step loop: unchanged after a failure, else that step's exception or its list appended |
| `Scraper.EllevioScraper.constructor` | Ellevio/scraper_new.py:27-36 | a new scraper has three empty lists; the output file is as it was |
| `Scraper.EllevioScraper.PopHeaderAndTotal` | Ellevio/scraper_new.py:102-106 | two or more rows leave `rows[1..n-1]`; fewer raise IndexError |
| `Scraper.EllevioScraper.GetCountyTableRows` | Ellevio/scraper_new.py:90-107 | returns the root page's data rows as TableRows describes them |
| `Scraper.EllevioScraper.GetPlaceNameWithOutages` | Ellevio/scraper_new.py:59-72 | the accumulator loop returns PlaceNamesWithOutage of the rows |
| `Scraper.EllevioScraper.GetCountiesWithOutage` | Ellevio/scraper_new.py:109-120 | appends the counties of the root page, or raises that exception with the list unchanged; nothing else changes |
| `Scraper.EllevioScraper.GetCountyMunicipalities` | Ellevio/scraper_new.py:127-142 | one county's listing as CountyMunicipalities describes it |
| `Scraper.EllevioScraper.AppendMunicipalities` | Ellevio/scraper_new.py:141-142 | appends the names in order and changes nothing else |
| `Scraper.EllevioScraper.GetMunicipalitiesWithOutage` | Ellevio/scraper_new.py:122-146 | appends exactly MunicipalityScan of the counties and reports its failure; nothing else changes |
| `Scraper.EllevioScraper.AcceptCookies` | Ellevio/scraper_new.py:203-214 | clicks exactly when the button is shown; a missing button is caught, so there is no error result |
| `Scraper.EllevioScraper.GetOutage` | Ellevio/scraper_new.py:150-185 | one municipality's record as OutageRecord describes it |
| `Scraper.EllevioScraper.GetOutages` | Ellevio/scraper_new.py:148-185 | appends exactly OutageScan of the municipalities and reports its failure; nothing else changes |
| `Scraper.EllevioScraper.SaveOutagesToFile` | Ellevio/scraper_new.py:216-227 | the file holds exactly `{"outages": Outages}` afterwards |
| `Scraper.EllevioScraper.RunCycle` | Ellevio/scraper_new.py:238-247 | the lists end as Cycle describes; the file is that cycle's snapshot when it finishes and is unchanged otherwise |
| `Scraper.EllevioScraper.RunScraper` | Ellevio/scraper_new.py:229-250 | the interval clamped to at least 60 with a warning exactly when it was lower, then cycles until the first exception: the file and cycle count are RunsOf's, and the lists hold the state of the last cycle run, finished or failed, or are unchanged when no cycle ran |
| `Script.ScriptCountyId` | Ellevio/scraper.py:45-49 | the old identifier has no space, never ends in 's', is lower-case, and the Västra Götaland label gives "västragötaland" |
| `Script.ScriptCountyIdIdempotent` | Ellevio/scraper.py:45-49 | applying the old normalisation a second time changes nothing |
| `Script.ScriptKeepsRow` | Ellevio/scraper.py:44 | the short-circuit test raises exactly when the second cell is missing, or it is "0" and the third is missing; on three cells it agrees with HasOutage |
| `Script.KeptNames` | Ellevio/scraper.py:42-49 | the row loop keeps at most as many names as rows |
| `Script.ScriptKeptRows` | Ellevio/scraper.py:44 | the rows the short-circuit `or` test keeps, in order, each one a row the test passes |
| `Script.KeptNamesRows` | Ellevio/scraper.py:42-49 | the row loop raises exactly when some row is too short for the test; otherwise it names each row of ScriptKeptRows by its first cell, in order, two-cell rows included |
| `Script.ScriptKeptRowsOfThreeCells` | Ellevio/scraper.py:44 | on rows of three cells the script keeps exactly the reference outage rows |
| `Script.KeptNamesStops` | Ellevio/scraper.py:42-49 | once a row raises, the loop has ended |
| `Script.KeptNamesOfOutageRows` | Ellevio/scraper.py:67-70 | on rows of three cells the loop keeps exactly the outage rows, in order, naming each by its first cell |
| `Script.ScriptCounties` | Ellevio/scraper.py:27-49 | the old county identifiers have no space |
| `Script.KeptCountyIds` | Ellevio/scraper.py:42-49 | no identifier the county loop appends has a space |
| `Script.ScriptListing` | Ellevio/scraper.py:54-70 | one county's listing: the table's data rows, then the row loop keeping lower-cased names (defined; value in ListingsCompared) |
| `Script.ScriptMunicipalityScan` | Ellevio/scraper.py:54-70 | the county loop over the listings, stopping at the first exception (defined; value in MunicipalitiesWithOutage) |
| `Script.ScriptEntries` | Ellevio/scraper.py:130-136 | the old record as JSON object members in insertion order (defined; key order in ScriptEntriesKeys) |
| `Script.ScriptEntriesKeys` | Ellevio/scraper.py:130-136 | an old record has five keys, once each, in order: the new keys without "affected_customers" |
| `Script.ScriptRecord` | Ellevio/scraper.py:108-136 | an old record names its municipality |
| `Script.ScriptRecordReads` | Ellevio/scraper.py:108-128 | an old record exists exactly when the divs exist, the three lines have colons and both texts exist; its fields are the two stripped fields and the texts |
| `Script.ScriptRecordErrors` | Ellevio/scraper.py:108-128 | the exception in the script's order: no timestamp container gives NoSuchElement, then a missing line or a line without a colon IndexError, then a missing note or update stamp NoSuchElement |
| `Script.ScriptOutageScan` | Ellevio/scraper.py:74-138 | the municipality loop, one record per page, stopping at the first exception (defined; value in OutagesOf and ScriptRunRecords) |
| `Script.ScriptRun` | Ellevio/scraper.py:27-148 | the whole script: the three loops in turn, the first exception ending the program before the file is written (defined; stated in ScriptRunRecords and RunScript) |
| `Script.ScriptRunRecords` | Ellevio/scraper.py:74-141 | a finished run writes one record per municipality, in order, each the record read from that municipality's page |
| `Script.ReadKeptNames` | Ellevio/scraper.py:42-49 | the row loop with Python's short-circuit `or` returns KeptNames |
| `Script.CountiesWithOutage` | Ellevio/scraper.py:27-49 | returns the old county identifiers, or the first exception |
| `Script.MunicipalitiesWithOutage` | Ellevio/scraper.py:54-70 | returns every county's names in county-then-row order, or the first exception |
| `Script.OutagesOf` | Ellevio/scraper.py:74-138 | returns one record per municipality in order, or the first exception |
| `Script.RunScript` | Ellevio/scraper.py:141-148 | the file holds the run's snapshot when no exception occurs; otherwise the exception is reported and the file keeps its previous content |
| `Compare.RStripRepeat` | Ellevio/scraper.py:46 | `rstrip(c)` ignores `c`s appended first |
| `Compare.LowerRepeatS` | Ellevio/scraper.py:46 | lower-casing leaves a run of 's's alone |
| `Compare.LowerOfPrefix` | Ellevio/scraper.py:46 | a prefix of a lower-case text is lower-case |
| `Compare.ScriptCountyIdIsNormalizedTwice` | Ellevio/scraper.py:45-49 | the old identifier is the new normalisation applied to the new identifier once more |
| `Compare.ScriptCountyIdAgrees` | Ellevio/scraper.py:45-49 | old and new identifiers agree exactly for the relabelled row or a first word that does not end in 'S' once its 's's are gone |
| `Compare.ShortRowKeptOnlyByScript` | Ellevio/scraper.py:44 | a two-cell row with an outage in its first indicator is kept by the old test and raises IndexError in the new filter |
| `Compare.CountiesCompared` | Ellevio/scraper.py:42-49 | on a root table whose rows have three cells, both county lists exist, have equal length, and each old entry is the new one normalised once more |
| `Compare.ListingsCompared` | Ellevio/scraper.py:67-70 | on a listing whose rows have three cells, both keep one name per outage row, and a name differs exactly where the row is labelled "V Götalands län" |
| `Compare.WithoutCount` | Ellevio/scraper.py:130-136 | the old record keeps every field of the new one but the count |
| `Compare.RecordsCompared` | Ellevio/scraper.py:108-136 | both readers raise the same exception on a page, except that only the new one can raise ValueError; a new record without its count is the old one |

## Left out

- Selenium itself is not modelled: Firefox, `implicitly_wait`, `get` and `find_element(s)`. Pages are values in the site map. A lookup that finds nothing is NoSuchElement at once; waits and timeouts are not modelled.
- Clicking the cookie button changes nothing the model reads. Every later lookup sees the page as given. The click is assumed to succeed: an exception other than NoSuchElementException raised by `click()` would end the cycle, and the model does not have it.
- `time.sleep`, logging, scraper.py's `print` calls and `driver.close()`, and the `__main__` block are not modelled. The block configures the log and reads the interval from `sys.argv`. The sleeps include the interval wait between cycles.
- Screenshots, PIL cropping and `get_window_size` are foreign calls whose results nothing else reads. They are assumed to succeed; an exception from them would end the cycle, and the model does not have it.
- `json.dumps`, UTF-8 encoding and the file write are not modelled. The file is the value written, `Snapshot` or `ScriptSnapshot`; `Detail.Entries` and `Script.ScriptEntries` give the key order of each object.
- Scraper.EllevioScraper.RunScraper: models a finite run over a given sequence of site states, one per cycle, instead of `while True`. An exception ends the run, as it ends the program.
- main.js is browser UI and is not part of this model.
- PyStr.LowerChar: lower-cases A-Z, Å, Ä, Ö and É only, not all of Unicode.
- PyStr.ParseInt: accepts an optional sign and ASCII digits. It does not accept the surrounding whitespace, underscores or non-ASCII digits that Python's `int()` also accepts. It also accepts digit strings longer than the limit of `sys.get_int_max_str_digits()` (4300 by default since CPython 3.11, 3.10.7 and 3.9.14), on which `int()` raises ValueError. The same limit on `str(n)` is not modelled in PyStr.Show.
- Python's integers have no fixed width, so there is no wrap-around to model. The only bound is the digit-count limit above.
