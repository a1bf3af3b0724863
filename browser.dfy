/** The outage map as the browser session sees it. A page is reduced to the
    few elements the scraper looks up; the site maps each URL to its page. */
module Browser {
  import opened Wrappers

  /** The texts of the `td` cells of one `tr` row. */
  type Row = seq<string>

  /** The elements of one rendered page that the scraper reads; None or false
      where the element is absent.
      - locationList: the rows of the table with class InfoBox_locationList__1AKS1;
      - timestamps: the texts of the `div` elements inside the first `div` of
        the element with class InterruptInfo_timestampsContainer__3f5L_ (None when
        either of those two is missing);
      - customerInformation: the text of InterruptInfo_customerInformationText__2hO59;
      - lastUpdated: the text of InfoBox_lastUpdatedText__1-6ip;
      - cookieButton: whether the consent dialog's "allow all" button is shown. */
  datatype Page = Page(
    locationList: Option<seq<Row>>,
    timestamps: Option<seq<string>>,
    customerInformation: Option<string>,
    lastUpdated: Option<string>,
    cookieButton: bool)

  type Site = map<string, Page>

  /** What the browser shows for an address the site does not serve: nothing
      the scraper looks for is on it. */
  const EmptyPage := Page(None, None, None, None, false)

  /** The page the session shows after navigating to `url`. */
  function PageAt(site: Site, url: string): Page {
    if url in site then site[url] else EmptyPage
  }

  const RootUrl := "https://avbrottskarta.ellevio.se/"
  const CountyUrlPrefix := "https://avbrottskarta.ellevio.se/län/"
  const MunicipalityUrlPrefix := "https://avbrottskarta.ellevio.se/kommun/"

  /** The listing for one county: COUNTY_URL + county + "/idag". */
  function CountyPageUrl(county: string): string {
    CountyUrlPrefix + county + "/idag"
  }

  /** The detail page of one municipality: MUNICIPALITY_URL + municipality. */
  function MunicipalityPageUrl(municipality: string): string {
    MunicipalityUrlPrefix + municipality
  }

  /** Distinct counties are looked up on distinct pages. */
  lemma CountyPageUrlInjective(a: string, b: string)
    requires CountyPageUrl(a) == CountyPageUrl(b)
    ensures a == b
  {
    assert a == CountyPageUrl(a)[|CountyUrlPrefix|..|CountyPageUrl(a)| - 5];
  }

  /** Distinct municipalities are looked up on distinct pages. */
  lemma MunicipalityPageUrlInjective(a: string, b: string)
    requires MunicipalityPageUrl(a) == MunicipalityPageUrl(b)
    ensures a == b
  {
    assert a == MunicipalityPageUrl(a)[|MunicipalityUrlPrefix|..];
  }

  /** find_element(CLASS_NAME, "InfoBox_locationList__1AKS1") followed by
      find_elements(TAG_NAME, "tr"). */
  function FindLocationRows(page: Page): (r: Result<seq<Row>>)
    ensures r.Ok? <==> page.locationList.Some?
    ensures r.Ok? ==> r.value == page.locationList.value
    ensures r.Err? ==> r.error == NoSuchElement
  {
    match page.locationList
    case None => Err(NoSuchElement)
    case Some(rows) => Ok(rows)
  }

  /** The container lookup, its nested `div`, and find_elements(TAG_NAME, "div"). */
  function FindTimestampDivs(page: Page): (r: Result<seq<string>>)
    ensures r.Ok? <==> page.timestamps.Some?
    ensures r.Ok? ==> r.value == page.timestamps.value
    ensures r.Err? ==> r.error == NoSuchElement
  {
    match page.timestamps
    case None => Err(NoSuchElement)
    case Some(divs) => Ok(divs)
  }

  /** find_element(...).text for an element given as an optional text. */
  function FindText(element: Option<string>): (r: Result<string>)
    ensures r.Ok? <==> element.Some?
    ensures r.Ok? ==> r.value == element.value
    ensures r.Err? ==> r.error == NoSuchElement
  {
    match element
    case None => Err(NoSuchElement)
    case Some(text) => Ok(text)
  }
}
