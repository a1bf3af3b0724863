/** A municipality's detail page: the labelled lines of its details panel,
    and the outage record scraper_new.py builds from them. */
module Detail {
  import opened Wrappers
  import opened PyStr
  import opened PyList
  import opened Browser

  /** A value in an outage dictionary. */
  datatype Value = Str(text: string) | Int(number: int)

  /** An outage as the dictionary `__CreateOutageDict` builds, one field per
      key, in the dictionary's insertion order. */
  datatype Outage = Outage(
    municipality: string, startTime: string, endTime: string,
    infoText: string, lastUpdate: string, affectedCustomers: int)

  /** The artifact outdata.json: `{"outages": [...]}`. */
  datatype Snapshot = Snapshot(outages: seq<Outage>)

  /** The keys of an outage object, in the order json.dumps writes them. */
  const OutageKeys: seq<string> :=
    ["municipality", "start_time", "end_time", "info_text", "last_update", "affected_customers"]

  /** `__CreateOutageDict`: the count is stored as an integer. */
  function CreateOutageDict(
    municipality: string, startTime: string, endTime: string,
    infoText: string, lastUpdate: string, affectedCustomers: int): Outage
  {
    Outage(municipality, startTime, endTime, infoText, lastUpdate, affectedCustomers)
  }

  /** The members of the JSON object an outage is written as. */
  function Entries(o: Outage): seq<(string, Value)> {
    [("municipality", Str(o.municipality)), ("start_time", Str(o.startTime)),
     ("end_time", Str(o.endTime)), ("info_text", Str(o.infoText)),
     ("last_update", Str(o.lastUpdate)), ("affected_customers", Int(o.affectedCustomers))]
  }

  /** Every dictionary the scraper builds has exactly the six keys, once each
      and in the same order, each bound to the argument of that name. */
  lemma CreateOutageDictKeys(
    municipality: string, startTime: string, endTime: string,
    infoText: string, lastUpdate: string, affectedCustomers: int)
    ensures var e := Entries(CreateOutageDict(municipality, startTime, endTime, infoText, lastUpdate, affectedCustomers));
      && |e| == |OutageKeys|
      && (forall k :: 0 <= k < |e| ==> e[k].0 == OutageKeys[k])
      && e[0].1 == Str(municipality) && e[1].1 == Str(startTime) && e[2].1 == Str(endTime)
      && e[3].1 == Str(infoText) && e[4].1 == Str(lastUpdate) && e[5].1 == Int(affectedCustomers)
  {
  }

  /** `line.split(":")[1].strip(" ")`: the text between the first and the
      second colon (or the end), without the spaces at its ends. A line with no
      colon has no second piece: IndexError. */
  function Field(line: string): (r: Result<string>)
    ensures r.Ok? <==> ':' in line
    ensures r.Err? ==> r.error == IndexError
  {
    if ':' !in line then Err(IndexError)
    else
      var rest := line[IndexOf(line, ':') + 1..];
      Ok(Strip(rest[..IndexOf(rest, ':')], ' '))
  }

  /** Field is Python's `split(":")[1].strip(" ")`: the split has a second
      piece exactly when the line has a colon, and the field is that piece
      stripped. */
  lemma FieldIsSplit(line: string)
    ensures var parts := Split(line, ':');
      && (|parts| >= 2 <==> ':' in line)
      && (|parts| >= 2 ==> Field(line) == Ok(Strip(parts[1], ' ')))
  {
    SplitHead(line, ':');
    if ':' in line {
      SplitTail(line, ':');
      SplitHead(line[IndexOf(line, ':') + 1..], ':');
    }
  }

  lemma FieldOfClockTime(caption: string, hour: string, minutes: string)
    requires ':' !in caption && IsDigits(hour)
    ensures Field(caption + ": " + hour + ":" + minutes) == Ok(hour)
  {
    var rest := " " + hour + ":" + minutes;
    assert caption + ": " + hour + ":" + minutes == caption + ":" + rest;
    FieldAfterCaption(caption, rest);
    ColonAfterDigits(hour, minutes);
    StripOneSpace(hour);
  }

  lemma ColonAfterDigits(digits: string, tail: string)
    requires IsDigits(digits)
    ensures var rest := " " + digits + ":" + tail;
      IndexOf(rest, ':') == 1 + |digits| && rest[..1 + |digits|] == " " + digits
  {
    var rest := " " + digits + ":" + tail;
    assert rest[..1 + |digits|] == " " + digits;
    IndexOfAt(rest, ':', 1 + |digits|);
  }

  /** The field of a line is read from the text after its first colon. */
  lemma FieldAfterCaption(caption: string, rest: string)
    requires ':' !in caption
    ensures Field(caption + ":" + rest) == Ok(Strip(rest[..IndexOf(rest, ':')], ' '))
  {
    var line := caption + ":" + rest;
    assert line[..|caption|] == caption;
    IndexOfAt(line, ':', |caption|);
    assert line[|caption| + 1..] == rest;
  }

  lemma StripOneSpace(word: string)
    requires IsDigits(word)
    ensures Strip(" " + word, ' ') == word
  {
    var s := " " + word;
    assert s[1..] == word;
    assert LStrip(word, ' ') == word;
    assert LStrip(s, ' ') == word;
    RStripNoTrailing(word, ' ');
  }

  /** The text of the customer line up to its first space, as int() reads it. */
  function CustomerCount(field: string): (r: Result<int>)
    ensures r.Ok? <==> ParseInt(FirstWord(field)).Ok?
    ensures r.Err? ==> r.error == ValueError
    ensures forall n: nat :: field == Show(n) ==> r == Ok(n)
  {
    forall n: nat | field == Show(n) ensures ParseInt(FirstWord(field)) == Ok(n) {
      ShowValue(n);
      FirstWordOfWord(Show(n));
    }
    ParseInt(FirstWord(field))
  }

  /** A count followed by a space and a unit, as in "120 st", is read as the
      count: int() sees only the text before the first space. */
  lemma CustomerCountWithUnit(n: nat, unit: string)
    ensures CustomerCount(Show(n) + " " + unit) == Ok(n)
  {
    ShowValue(n);
    FirstWordBefore(Show(n), unit);
  }

  /** What `__ExtractOutageInfo` returns. */
  datatype OutageInfo = OutageInfo(
    startTime: string, endTime: string, affectedCustomers: int,
    infoText: string, lastUpdate: string)

  /** Everything the three labelled lines and the two page texts need for
      `__ExtractOutageInfo` to return normally. */
  predicate DetailsReadable(divs: seq<string>, page: Page) {
    && |divs| >= 3
    && ':' in divs[0] && ':' in divs[1] && ':' in divs[2]
    && page.customerInformation.Some? && page.lastUpdated.Some?
    && ParseInt(FirstWord(Field(divs[2]).value)).Ok?
  }

  /** `__ExtractOutageInfo`, in the order Python evaluates it: the three lines
      (IndexError), the note and the update stamp (NoSuchElement), then int()
      on the count (ValueError). */
  function ExtractOutageInfo(divs: seq<string>, page: Page): Result<OutageInfo>
  {
    var line0 :- At(divs, 0);
    var startTime :- Field(line0);
    var line1 :- At(divs, 1);
    var endTime :- Field(line1);
    var line2 :- At(divs, 2);
    var customers :- Field(line2);
    var infoText :- FindText(page.customerInformation);
    var lastUpdate :- FindText(page.lastUpdated);
    var count :- CustomerCount(customers);
    Ok(OutageInfo(startTime, endTime, count, infoText, lastUpdate))
  }

  /** `__ExtractOutageInfo` returns exactly when the lines and texts are
      readable, and then its fields are the three fields and the two texts. */
  lemma ExtractOutageInfoFields(divs: seq<string>, page: Page)
    ensures var r := ExtractOutageInfo(divs, page);
      && (r.Ok? <==> DetailsReadable(divs, page))
      && (r.Ok? ==>
        && Ok(r.value.startTime) == Field(divs[0])
        && Ok(r.value.endTime) == Field(divs[1])
        && Ok(r.value.affectedCustomers) == CustomerCount(Field(divs[2]).value)
        && r.value.infoText == page.customerInformation.value
        && r.value.lastUpdate == page.lastUpdated.value)
  {
  }

  /** The exception `__ExtractOutageInfo` raises, in Python's order: a
      missing line or a line without a colon (IndexError) before a missing
      note or update stamp (NoSuchElement) before a count int() rejects
      (ValueError). */
  lemma ExtractOutageInfoErrors(divs: seq<string>, page: Page)
    ensures (|divs| < 3 || ':' !in divs[0] || ':' !in divs[1] || ':' !in divs[2]) ==>
      ExtractOutageInfo(divs, page) == Err(IndexError)
    ensures (&& |divs| >= 3 && ':' in divs[0] && ':' in divs[1] && ':' in divs[2]
             && (page.customerInformation.None? || page.lastUpdated.None?)) ==>
      ExtractOutageInfo(divs, page) == Err(NoSuchElement)
    ensures (&& |divs| >= 3 && ':' in divs[0] && ':' in divs[1] && ':' in divs[2]
             && page.customerInformation.Some? && page.lastUpdated.Some?
             && ParseInt(FirstWord(Field(divs[2]).value)).Err?) ==>
      ExtractOutageInfo(divs, page) == Err(ValueError)
  {
  }
}
