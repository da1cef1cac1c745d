/** The company service: owns the catalog, runs the crawl over the website
    list, fuses its results into the catalog, rebuilds the search index and
    answers searches once it is initialised. */
module Service {
  import opened Wrappers
  import opened Seqs
  import opened Company
  import opened Normalize
  import opened Search
  import opened Fusion
  import opened Scraper

  /** What `startScraping` returns. */
  datatype ScrapeReport = ScrapeReport(message: string, analytics: AnalyticsData)

  const ScrapingCompleted := "Scraping completed successfully"

  /** One row of the API input sample. */
  datatype ApiInput = ApiInput(
    inputName: Option<string>,
    inputWebsite: Option<string>,
    inputPhone: Option<string>,
    inputFacebook: Option<string>)

  /** The search parameters `testWithApiSample` builds from a row. */
  function ParamsOf(input: ApiInput): SearchParams {
    SearchParams(input.inputName, input.inputWebsite, input.inputPhone, input.inputFacebook)
  }

  datatype TestResult = TestResult(input: ApiInput, companyMatch: Option<CompanyMatch>, found: bool)

  datatype TestReport = TestReport(totalTests: nat, successfulMatches: nat, matchRate: Percent, results: seq<TestResult>)

  /** What `getServiceStatus` returns. */
  datatype ServiceStatus = ServiceStatus(
    initialized: bool,
    companiesCount: nat,
    scrapedDataCount: nat,
    analyticsAvailable: bool,
    indexedCompanies: nat,
    indexed: bool)

  /** The result row for one input of the sample. */
  function TestResultFor(cs: seq<CompanyData>, index: FuzzyIndex, input: ApiInput): TestResult {
    var m := SearchResult(cs, index, ParamsOf(input));
    TestResult(input, m, m.Some?)
  }

  predicate Found(r: TestResult) { r.found }

  /** One result row per input, in order. */
  function TestRows(cs: seq<CompanyData>, index: FuzzyIndex, inputs: seq<ApiInput>): seq<TestResult> {
    seq(|inputs|, k requires 0 <= k < |inputs| => TestResultFor(cs, index, inputs[k]))
  }

  /** The report of `testWithApiSample` over a catalog and its index. */
  function TestReportOf(cs: seq<CompanyData>, index: FuzzyIndex, inputs: seq<ApiInput>): (r: TestReport)
    ensures r.totalTests == |inputs| && |r.results| == |inputs|
    ensures r.successfulMatches <= r.totalTests
    ensures inputs == [] <==> r.matchRate == NaN
    ensures inputs != [] ==> r.matchRate.Percent? && 0.0 <= r.matchRate.value <= 100.0
  {
    var results := TestRows(cs, index, inputs);
    var found := Count(results, Found);
    TestReport(|inputs|, found, Percentage(found, |inputs|), results)
  }

  /** Every row of the report carries its input and the search's answer for
      it, and is `found` exactly when that answer is a match. */
  lemma TestReportRows(cs: seq<CompanyData>, index: FuzzyIndex, inputs: seq<ApiInput>, k: nat)
    requires k < |inputs|
    ensures var row := TestReportOf(cs, index, inputs).results[k];
            row.input == inputs[k] &&
            row.companyMatch == SearchResult(cs, index, ParamsOf(inputs[k])) &&
            (row.found <==> SearchResult(cs, index, ParamsOf(inputs[k])).Some?)
  {
  }

  /** The rows of the report up to `i`, one more at a time. */
  lemma TestRowsStep(cs: seq<CompanyData>, index: FuzzyIndex, inputs: seq<ApiInput>, i: nat)
    requires i < |inputs|
    ensures var rows := TestRows(cs, index, inputs);
            rows[..i + 1] == rows[..i] + [TestResultFor(cs, index, inputs[i])]
  {
    var rows := TestRows(cs, index, inputs);
    assert rows[..i + 1] == rows[..i] + [rows[i]];
  }

  /** An input whose website names a catalog domain is always found, so such
      inputs alone bound the number of successful matches from below. */
  lemma DomainInputsAreFound(cs: seq<CompanyData>, index: FuzzyIndex, inputs: seq<ApiInput>)
    requires forall k :: 0 <= k < |inputs| ==>
               Truthy(inputs[k].inputWebsite) &&
               exists j :: 0 <= j < |cs| && SameDomain(cs[j], NormalizeDomain(inputs[k].inputWebsite.value))
    ensures TestReportOf(cs, index, inputs).successfulMatches == |inputs|
    ensures inputs != [] ==> TestReportOf(cs, index, inputs).matchRate == Percent(100.0)
  {
    var report := TestReportOf(cs, index, inputs);
    var results := report.results;
    forall k | 0 <= k < |inputs| ensures Found(results[k]) {
      var p := ParamsOf(inputs[k]);
      var d := NormalizeDomain(p.website.value);
      ExactDomainFound(cs, p, d);
      CascadeFirstAccepted(cs, index, p, 0);
    }
    CountSame(results, Found, (r: TestResult) => true);
    CountAll(results, (r: TestResult) => true);
  }

  lemma ExactDomainFound(cs: seq<CompanyData>, p: SearchParams, d: string)
    requires Truthy(p.website) && d == NormalizeDomain(p.website.value)
    requires exists j :: 0 <= j < |cs| && SameDomain(cs[j], d)
    ensures ExactDomainMatch(cs, p).Some?
  {
  }

  lemma {:induction false} CountAll<T>(s: seq<T>, p: T -> bool)
    requires forall i :: 0 <= i < |s| ==> p(s[i])
    ensures Count(s, p) == |s|
  {
    if s != [] {
      CountAll(s[..|s| - 1], p);
    }
  }

  /** Fusion keeps every domain, so a domain search over the merged catalog
      finds the merged version of the record it found before. */
  lemma MergeKeepsDomainMatch(cs: seq<CompanyData>, batch: seq<ScrapedData>, p: SearchParams, k: nat)
    requires Truthy(p.website) && k < |cs| && SameDomain(cs[k], NormalizeDomain(p.website.value))
    requires forall j :: 0 <= j < k ==> !SameDomain(cs[j], NormalizeDomain(p.website.value))
    ensures ExactDomainMatch(FuseCatalog(cs, batch), p) ==
              Some(CompanyMatch(FuseCatalog(cs, batch)[k], MatchScore(1.0, [Domain], High)))
    ensures ExactDomainMatch(cs, p) == Some(CompanyMatch(cs[k], MatchScore(1.0, [Domain], High)))
  {
    ExactDomainMatchIsFirst(cs, p, k);
    ExactDomainMatchIsFirst(FuseCatalog(cs, batch), p, k);
  }

  class CompanyService {
    var companies: seq<CompanyData>
    var scrapedData: seq<ScrapedData>
    var analytics: Option<AnalyticsData>
    var isInitialized: bool
    const searchService: SearchService

    /** The search service indexes exactly this catalog, and it has an index
        exactly when this service is initialised. */
    ghost predicate Valid()
      reads this, searchService
    {
      searchService.Valid() &&
      searchService.companies == companies &&
      (isInitialized <==> searchService.fuseInstance.Some?)
    }

    constructor(search: SearchService)
      requires search.Valid() && search.companies == [] && search.fuseInstance.None?
      ensures Valid()
      ensures searchService == search
      ensures companies == [] && scrapedData == [] && analytics == None && !isInitialized
    {
      companies := [];
      scrapedData := [];
      analytics := None;
      isInitialized := false;
      searchService := search;
    }

    /** `initializeData`: the loaded profiles become the catalog and are
        indexed; the service is then initialised. */
    method InitializeData(loaded: seq<CompanyData>)
      requires Valid()
      modifies this, searchService
      ensures Valid()
      ensures companies == loaded && isInitialized
      ensures searchService.fuseInstance == Some(searchService.buildIndex(loaded))
      ensures scrapedData == old(scrapedData) && analytics == old(analytics)
    {
      companies := loaded;
      searchService.InitializeIndex(companies);
      isInitialized := true;
    }

    /** `mergeScrapedData`: index the crawl results by domain, then fuse
        every record with its domain's result. */
    method MergeScrapedData()
      modifies this
      ensures companies == FuseCatalog(old(companies), scrapedData)
      ensures scrapedData == old(scrapedData) && analytics == old(analytics) && isInitialized == old(isInitialized)
    {
      var scrapedDataMap := BuildScrapedMap(scrapedData);
      var merged: seq<CompanyData> := [];
      var i := 0;
      while i < |companies|
        invariant 0 <= i <= |companies|
        invariant unchanged(this)
        invariant FusedUpTo(merged, companies, scrapedDataMap, i)
      {
        var company := companies[i];
        var scraped := Lookup(scrapedDataMap, company.domain);
        var fused := company;
        if scraped.Some? && scraped.value.crawlSuccess {
          var phones := MergePhoneNumbers(company.phoneNumbers, Some(scraped.value.phoneNumbers));
          var links := MergeSocialMediaLinks(company.socialMediaLinks, Some(scraped.value.socialMediaLinks));
          fused := company.(phoneNumbers := Some(phones), socialMediaLinks := Some(links),
                            address := OrElse(company.address, scraped.value.address),
                            location := OrElse(company.location, scraped.value.location));
        }
        assert fused == FuseRecord(company, scraped);
        FusedUpToStep(merged, companies, scrapedDataMap, i, fused);
        merged := merged + [fused];
        i := i + 1;
      }
      FusedUpToCatalog(merged, companies, scrapedData);
      companies := merged;
    }

    /** `startScraping`: refused before initialisation; otherwise crawl the
        website list, keep the results and analytics, fuse the results into
        the catalog and rebuild the index over the fused catalog. */
    method StartScraping(websites: seq<string>, browse: string -> Visit, elapsedMs: int)
      returns (r: Result<ScrapeReport, ServiceError>)
      requires Valid()
      modifies this, searchService
      ensures Valid()
      ensures !old(isInitialized) ==>
                r == Failure(ServiceNotInitialized) &&
                companies == old(companies) && scrapedData == old(scrapedData) && analytics == old(analytics)
      ensures old(isInitialized) ==>
                scrapedData == ScrapeAll(websites, browse) &&
                analytics == Some(CalculateAnalytics(scrapedData, elapsedMs)) &&
                companies == FuseCatalog(old(companies), scrapedData) &&
                searchService.fuseInstance == Some(searchService.buildIndex(companies)) &&
                r == Success(ScrapeReport(ScrapingCompleted, analytics.value))
      ensures isInitialized == old(isInitialized)
    {
      if !isInitialized {
        return Failure(ServiceNotInitialized);
      }
      var data, a := ScrapeWebsites(websites, browse, elapsedMs);
      scrapedData := data;
      analytics := Some(a);
      MergeScrapedData();
      searchService.InitializeIndex(companies);
      r := Success(ScrapeReport(ScrapingCompleted, a));
    }

    /** `searchCompany`: refused before initialisation; otherwise the search
        service's answer over the current catalog. */
    method SearchCompany(p: SearchParams) returns (r: Result<Option<CompanyMatch>, ServiceError>)
      requires Valid()
      ensures !isInitialized ==> r == Failure(ServiceNotInitialized)
      ensures isInitialized ==> r == Success(SearchResult(companies, searchService.fuseInstance.value, p))
    {
      if !isInitialized {
        return Failure(ServiceNotInitialized);
      }
      r := searchService.SearchCompany(p);
    }

    /** `testWithApiSample`: refused before initialisation; otherwise one
        search per row, then the share of rows that found a match. */
    method TestWithApiSample(inputs: seq<ApiInput>) returns (r: Result<TestReport, ServiceError>)
      requires Valid()
      ensures !isInitialized ==> r == Failure(ServiceNotInitialized)
      ensures isInitialized ==> r == Success(TestReportOf(companies, searchService.fuseInstance.value, inputs))
    {
      if !isInitialized {
        return Failure(ServiceNotInitialized);
      }
      ghost var index := searchService.fuseInstance.value;
      ghost var expected := TestRows(companies, index, inputs);
      var results: seq<TestResult> := [];
      var i := 0;
      while i < |inputs|
        invariant 0 <= i <= |inputs|
        invariant results == expected[..i]
      {
        var input := inputs[i];
        var outcome := SearchCompany(ParamsOf(input));
        var found := outcome.value;
        TestRowsStep(companies, index, inputs, i);
        results := results + [TestResult(input, found, found.Some?)];
        i := i + 1;
      }
      assert results == expected;
      var successfulMatches := CountFound(results);
      r := Success(TestReport(|inputs|, successfulMatches, Percentage(successfulMatches, |inputs|), results));
    }

    /** `getServiceStatus`, with the index statistics of the search service. */
    method GetServiceStatus() returns (status: ServiceStatus)
      requires Valid()
      ensures status.initialized == isInitialized && status.companiesCount == |companies|
      ensures status.scrapedDataCount == |scrapedData| && (status.analyticsAvailable <==> analytics.Some?)
      ensures status.indexedCompanies == status.companiesCount && (status.indexed <==> status.initialized)
    {
      var total, indexed := searchService.GetIndexStats();
      status := ServiceStatus(isInitialized, |companies|, |scrapedData|, analytics.Some?, total, indexed);
    }

    /** `getCompanyByDomain`: the first record whose domain is exactly
        `domain`, with no normalisation. */
    function GetCompanyByDomain(domain: string): (r: Option<CompanyData>)
      reads this
      ensures r.None? <==> forall k :: 0 <= k < |companies| ==> companies[k].domain != domain
      ensures r.Some? ==> r.value.domain == domain && r.value in companies
    {
      FindByDomain(companies, domain)
    }
  }

  /** `results.filter(r => r.found).length` */
  method CountFound(results: seq<TestResult>) returns (n: nat)
    ensures n == Count(results, Found)
  {
    n := 0;
    var i := 0;
    while i < |results|
      invariant 0 <= i <= |results|
      invariant n == Count(results[..i], Found)
    {
      CountPrefix(results, i, Found);
      if results[i].found {
        n := n + 1;
      }
      i := i + 1;
    }
    assert results[..i] == results;
  }
}
