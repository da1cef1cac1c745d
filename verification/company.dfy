/** The records exchanged by the services: a catalog record, a crawl result,
    the match score and the search parameters. An optional JavaScript field
    (`field?: T`) is an `Option`; a present field holding `undefined` is not
    distinguished from an absent one. */
module Company {
  import opened Wrappers

  datatype SocialMediaLinks = SocialMediaLinks(
    facebook: Option<string>,
    twitter: Option<string>,
    linkedin: Option<string>,
    instagram: Option<string>,
    youtube: Option<string>,
    other: Option<seq<string>>)

  /** The empty object `{}`: no key at all. */
  const NoLinks := SocialMediaLinks(None, None, None, None, None, None)

  /** `Object.keys(links).length > 0` */
  predicate HasAnyKey(links: SocialMediaLinks) {
    links.facebook.Some? || links.twitter.Some? || links.linkedin.Some? ||
    links.instagram.Some? || links.youtube.Some? || links.other.Some?
  }

  /** A catalog record; `domain` is its identity. */
  datatype CompanyData = CompanyData(
    domain: string,
    commercialName: Option<string>,
    legalName: Option<string>,
    allNames: Option<string>,
    phoneNumbers: Option<seq<string>>,
    socialMediaLinks: Option<SocialMediaLinks>,
    address: Option<string>,
    location: Option<string>)

  /** The result of crawling one domain. */
  datatype ScrapedData = ScrapedData(
    domain: string,
    phoneNumbers: seq<string>,
    socialMediaLinks: SocialMediaLinks,
    address: Option<string>,
    location: Option<string>,
    crawlSuccess: bool,
    crawlDurationMs: int,
    errorMessage: Option<string>)

  /** A JavaScript number computed as `(part / whole) * 100`: `NaN` when `whole` is 0. */
  datatype Percent = Percent(value: real) | NaN

  lemma RatioBounds(part: nat, whole: nat)
    requires 0 < whole
    ensures part <= whole ==> 0.0 <= part as real / whole as real <= 1.0
    ensures part == whole ==> part as real / whole as real == 1.0
  {
    var w := whole as real;
    var x := part as real / w;
    assert x * w == part as real;
    assert x <= 1.0 <==> x * w <= 1.0 * w;
  }

  function Percentage(part: nat, whole: nat): (p: Percent)
    ensures whole == 0 <==> p == NaN
    ensures whole > 0 && part <= whole ==> 0.0 <= p.value <= 100.0
    ensures whole > 0 && part == whole ==> p == Percent(100.0)
  {
    if whole == 0 then NaN
    else
      RatioBounds(part, whole);
      Percent((part as real / whole as real) * 100.0)
  }

  datatype FillRates = FillRates(phoneNumbers: Percent, socialMedia: Percent, address: Percent)

  datatype AnalyticsData = AnalyticsData(
    totalWebsites: nat,
    successfullyCrawled: nat,
    coveragePercentage: Percent,
    fillRates: FillRates,
    totalProcessingTimeMs: int)

  datatype Confidence = High | Medium | Low

  /** The entries `'domain'`, `'phone'`, `'facebook'` and `'name'` of `matched_fields`. */
  datatype MatchedField = Domain | Phone | Facebook | Name

  datatype MatchScore = MatchScore(score: real, matchedFields: seq<MatchedField>, confidence: Confidence)

  datatype CompanyMatch = CompanyMatch(company: CompanyData, matchScore: MatchScore)

  /** The parameters of a search, in the order `Object.values` lists them. */
  datatype SearchParams = SearchParams(
    name: Option<string>,
    website: Option<string>,
    phone: Option<string>,
    facebook: Option<string>)

  /** The errors the services throw. */
  datatype ServiceError = SearchIndexNotInitialized | ServiceNotInitialized {
    function Message(): string {
      match this
      case SearchIndexNotInitialized => "Search index not initialized"
      case ServiceNotInitialized => "Service not initialized"
    }
  }

  /** JavaScript truthiness of an optional string: present and non-empty. */
  predicate Truthy(s: Option<string>) {
    s.Some? && s.value != ""
  }

  /** `a || b` on optional strings: the first operand unless it is falsy. */
  function OrElse(a: Option<string>, b: Option<string>): (r: Option<string>)
    ensures Truthy(a) ==> r == a
    ensures !Truthy(a) ==> r == b
  {
    if Truthy(a) then a else b
  }
}
