# Company entity resolution and data fusion, in Dafny

This project models the core of a company-matching service and proves
properties of that model. The service has three parts.

- **Search.** A catalog of company profiles is indexed for fuzzy search. A
  query carrying any of a name, a website, a phone number and a Facebook URL
  is answered by a cascade of five strategies. Three are exact: domain, phone
  and Facebook. The fourth is a fuzzy name search that accepts scores up to
  0.3, and the fifth a combined fuzzy query. The first strategy that scores
  at least 0.7 wins; otherwise the best fuzzy hit comes back with low
  confidence.
- **Crawl.** Each website of a list is visited in batches of ten. The crawl
  extracts phone numbers, social-media links and a postal address, then
  computes coverage and fill-rate analytics.
- **Fusion.** The crawl results are keyed by domain, so a later result for
  a domain replaces an earlier one, even a failed result replacing a
  successful one. A profile whose domain's last result succeeded is merged
  with it: phone numbers and `other` links are unioned; the address, the
  location and each platform link keep the profile's value unless it is
  missing or empty, and otherwise take the crawled value, which may itself
  be missing. Other profiles are unchanged. The index is then rebuilt.

Modules:

- `Wrappers`: `Option` and `Result`.
- `Seqs`: first-seen de-duplication (a JavaScript `Set`), `find` and counting.
- `Strings`: the JavaScript string operations used.
- `Company`: the records of the interfaces file, `||` on optional strings, and percentages with `NaN` for 0/0.
- `Normalize` and `NormalizeExamples`: the normalisers and name similarity, with worked examples.
- `Search`: the strategies, the cascade and the `SearchService` class.
- `Fusion`: the merge functions.
- `Scraper`: the extractors, the crawl and the analytics.
- `Service`: the `CompanyService` class.

The fuzzy index (Fuse.js) is not modelled by its algorithm. An index is a
function from a query string to a ranked list of hits. The service's index
builder must return, for every query, hits that are catalog records with
scores in [0, 1] in ascending order (`Search.BuildsRankedIndex`). Nothing
else about Fuse.js is assumed.

The browser, the HTML parser and the regular-expression engine are not
modelled either. A visited page is given as what they produce (`Scraper.PageContent`):

- the matches of each of the four phone patterns;
- the `href` of every link, in document order;
- the text of the first element of each address selector;
- the first match of the address pattern in the body text.

## Model

| member | source | states |
|---|---|---|
| Company.Percentage | src/services/scraper.service.ts:207-211 | `(part / whole) * 100` is `NaN` exactly when `whole` is 0, lies in [0, 100] when `part <= whole`, and is 100 when they are equal |
| Company.OrElse | src/services/company.service.ts:167-168 | `a \|\| b` on optional strings: `a` when present and non-empty, otherwise `b` |
| Normalize.NormalizeDomain | src/services/search.service.ts:210-216 | the normalised domain is no longer than the input and has no upper-case letter |
| Normalize.NormalizeDomainStripsOnce | src/services/search.service.ts:210-216 | the result is the lower-cased core once at most one `http://`/`https://`, one `www.` and one trailing `/` are removed from the input |
| Normalize.NormalizeDomainOfParts | src/services/search.service.ts:210-216 | conversely, when the input is built from a scheme, `www.`, a core and a slash, each present or absent, and no absent part could be mistaken for one, normalisation gives exactly the lower-cased core |
| Normalize.StripSchemeSplit | src/services/search.service.ts:212 | the scheme step removes nothing, `http://` or `https://` from the front, and nothing else |
| Normalize.StripWwwSplit | src/services/search.service.ts:213 | the `www.` step removes nothing or `www.` from the front, and nothing else |
| Normalize.StripSlashSplit | src/services/search.service.ts:214 | the slash step removes nothing or one `/` from the end, and nothing else |
| Normalize.DomainParts | src/services/search.service.ts:210-216 | any input splits into a stripped scheme, `www.` and slash, each present at most once, around a core whose lower-cased form is the result |
| Normalize.NormalizePhone | src/services/search.service.ts:218-220 | the result is all digits; when the input's digits start with `1` exactly that one `1` is removed from them, and otherwise they are the result unchanged |
| Normalize.NormalizeFacebookUrl | src/services/search.service.ts:222-230 | the result is no longer than the URL and has no upper-case letter |
| Normalize.NormalizeFacebookUrlCuts | src/services/search.service.ts:222-230 | for every URL, the result is the normalised domain with its leftmost `facebook.com/` cut out, and then the leftmost `fb.com/` of what remains; a pattern that does not occur leaves the text unchanged |
| Strings.RemoveFirstCutsLeftmost | src/services/search.service.ts:228-229 | `replace` with a string pattern cuts out exactly the leftmost occurrence, or nothing when there is none |
| Strings.CutLeftmostUnique | src/services/search.service.ts:228-229 | cutting out the leftmost occurrence has only one possible outcome |
| Normalize.CollapseSpaces | src/services/search.service.ts:277 | collapsing white-space runs never lengthens the text, leaves no two adjacent white-space characters, keeps every other character from the input, and turns a leading run into one space |
| Normalize.NormalizeNameForm | src/services/search.service.ts:274-278 | every name normalises to lower-case word characters separated by single spaces, with no space at either end |
| Normalize.Overlap | src/services/search.service.ts:290-291 | the overlap count never exceeds the number of input words |
| Normalize.EmptyNameIsSimilarToAll | src/services/search.service.ts:273-294 | for `IsNameSimilar`: a name that normalises to the empty string is similar to every name in both argument positions, since `includes('')` holds |
| Normalize.ContainedNameIsSimilar | src/services/search.service.ts:285-287 | for `IsNameSimilar`: names are similar whenever one normalised name occurs inside the other |
| Normalize.NameSimilarityIgnoresCase | src/services/search.service.ts:274-278 | for `IsNameSimilar`: lower-casing either argument does not change the similarity verdict |
| NormalizeExamples.FullUrlNormalisation | src/services/search.service.ts:210-216 | for every host and path, `http://www.<core>/` and `https://www.<core>/` normalise to `<core>` in lower case |
| NormalizeExamples.NormalizeDoubleScheme | src/services/search.service.ts:212 | only one scheme is stripped: `http://http://a.com` normalises to `http://a.com`, so normalisation is not idempotent |
| NormalizeExamples.NormalizeSchemeOnly | src/services/search.service.ts:210-216 | normalising `http://a.com` gives `a.com`, the second step of the non-idempotence example |
| NormalizeExamples.NormalizeUpperScheme | src/services/search.service.ts:212-215 | an upper-case scheme is not stripped, because the scheme is matched before lower-casing: `HTTP://<host>` normalises to `http://<host>` in lower case, for any host not ending in `/` |
| NormalizeExamples.PhoneNormalisationNotIdempotent | src/services/search.service.ts:218-220 | `11` normalises to `1` and `1` normalises to the empty string |
| NormalizeExamples.DigitsOfDigitRuns | src/services/search.service.ts:219 | dropping the non-digits of `x + sep + y`, where `x` is all digits and `sep` has none, leaves `x` followed by the digits of `y` |
| NormalizeExamples.PhoneSpellingsAgree | src/services/search.service.ts:218-220 | `(AAA) EEE-LLLL` and `AAA-EEE-LLLL` normalise to the same number, for any digit groups |
| NormalizeExamples.FacebookLongForm | src/services/search.service.ts:222-230 | `facebook.com/<page>` normalises to the page name in lower case when the page does not end in `/` or contain `fb.com/` |
| NormalizeExamples.FacebookShortForm | src/services/search.service.ts:222-230 | `fb.com/<page>` normalises to the page name in lower case when the page does not end in `/` or contain `facebook.com/` |
| NormalizeExamples.FacebookShortAndLongAgree | src/services/search.service.ts:222-230 | `facebook.com/<page>` and `fb.com/<page>` normalise to the same page name, for every page name that does not end in `/` and contains neither pattern |
| NormalizeExamples.FacebookPageNormalisation | src/services/search.service.ts:222-230 | `https://www.facebook.com/<page>/` normalises to the page name in lower case, for every page name that does not itself contain `fb.com/` |
| Search.TruthyValuesKeep | src/services/search.service.ts:259-263 | `filter(Boolean)` keeps every present, non-empty value, keeps nothing else (each kept value is a truthy entry's value, and none is empty), and is empty exactly when none is truthy |
| Search.TruthyValuesAppend | src/services/search.service.ts:259-263 | the filter works entry by entry in input order: filtering a concatenation concatenates the filtered parts |
| Search.CompanyNamesPresent | src/services/search.service.ts:259-263 | each present, non-empty name of the record is among the names compared, and no compared name is empty |
| Search.FieldsWhere | src/services/search.service.ts:232-271 | each field is listed exactly when its condition holds, in the order domain, phone, facebook, name |
| Search.MatchedFields | src/services/search.service.ts:232-271 | `domain`, `phone`, `facebook` and `name` are each listed exactly when the corresponding parameter agrees with the record under its normaliser, in that order |
| Search.MatchedFieldsNeedParameters | src/services/search.service.ts:238-258 | a field is only listed when its parameter is present and non-empty, and no field is listed twice |
| Search.WeightOfAppend | src/services/search.service.ts:296-328 | the weight of matched fields adds up over concatenation |
| Search.BonusWhereIsWeight | src/services/search.service.ts:296-328 | the bonus accumulated step by step equals the summed weights 0.3, 0.25 and 0.2 of the listed domain, phone and facebook fields |
| Search.BonusIsWeightOfMatchedFields | src/services/search.service.ts:296-328 | the combined-score bonus is the weight of exactly the fields `determineMatchedFields` lists |
| Search.CombinedScore | src/services/search.service.ts:296-328 | for a Fuse score `s` in [0, 1] the combined score lies in [1 - s, 1]; with no bonus it is `1 - s` |
| Search.CombinedScoreMonotone | src/services/search.service.ts:296-328 | for a Fuse score `s >= 0`, a larger bonus never gives a lower combined score, so an agreeing field can only raise the score of a hit |
| Search.CombinedScoreBounds | src/services/search.service.ts:325-327 | `(1 - s + w) / (1 + w)` is at least `1 - s` for `s >= 0`, and at least 0 for `s <= 1` |
| Search.Tier | src/services/search.service.ts:174 | confidence is high exactly from 0.8 and low exactly below 0.6 |
| Search.ExactDomainMatch | src/services/search.service.ts:60-80 | no match exactly when the website is absent or empty, or no record's normalised domain equals its normalised form; otherwise a catalog record with score 1.0, fields `[domain]`, high confidence |
| Search.ExactDomainMatchIsFirst | src/services/search.service.ts:64-66 | the record returned is the first in catalog order whose domain agrees |
| Search.ExactPhoneMatch | src/services/search.service.ts:82-104 | no match exactly when the phone is absent or empty, or no record lists a number with the same normal form; otherwise a catalog record with score 0.95, fields `[phone]`, high confidence |
| Search.ExactPhoneMatchIsFirst | src/services/search.service.ts:86-90 | the record returned is the first in catalog order with an agreeing number |
| Search.ExactFacebookMatch | src/services/search.service.ts:106-127 | no match exactly when the URL is absent or empty, or no record's Facebook link normalises to the same page; otherwise a catalog record with score 0.9, fields `[facebook]`, high confidence |
| Search.ExactFacebookMatchIsFirst | src/services/search.service.ts:110-113 | the record returned is the first in catalog order with an agreeing Facebook link |
| Search.FuzzyNameMatch | src/services/search.service.ts:129-146 | a match exactly when the name is present, non-empty and its best hit scores at most 0.3; the match has score `1 - s` (at least 0.7), fields `[name]`, high confidence exactly when `s <= 0.1`, and is never low |
| Search.JoinTruthyEmpty | src/services/search.service.ts:154-159 | `filter(Boolean).join(' ')` is empty exactly when no value is truthy |
| Search.QueriesEmpty | src/services/search.service.ts:154-161 | the fallback query is empty exactly when all four parameters are; the combined query also when the website normalises to the empty string |
| Search.CombinedMatchShape | src/services/search.service.ts:148-180 | `CombinedMatchOf`, the combined strategy, answers exactly when its query is non-empty and has a hit; it reports that hit's record with a score in [1 - s, 1], the fields agreeing with it and the tier of the score |
| Search.BestMatchShape | src/services/search.service.ts:182-208 | `BestMatchOf`, the fallback, answers exactly when its query is non-empty and has a hit; it reports that hit's record with a score of at least `1 - s` and in [0.1, 1], the fields agreeing with it and low confidence |
| Search.CascadeFromFirstAccepted | src/services/search.service.ts:50-55 | in `CascadeFrom`, strategies that are not accepted are skipped by the loop |
| Search.CascadeFirstAccepted | src/services/search.service.ts:50-57 | `SearchResult` returns the first strategy result scoring at least 0.7, and the best match when there is none |
| Search.CascadeFromBounds | src/services/search.service.ts:50-57 | from any point of the strategy list on, the answer obeys the bounds of every search answer |
| Search.DomainHitWins | src/services/search.service.ts:32-80 | a website agreeing with some record decides the search: the first such record, score 1.0, `[domain]`, high |
| Search.FuzzyHitAccepted | src/services/search.service.ts:50-55 | when no exact strategy matches, an accepted fuzzy name hit is the answer |
| Search.EmptyQueryNoMatch | src/services/search.service.ts:32-58 | with every parameter absent or empty the search finds nothing, whatever the index would answer |
| Search.StrategyResultBounds | src/services/search.service.ts:60-180 | every result of `RunStrategy` is a catalog record with a score in [0, 1] and a confidence consistent with the tiers |
| Search.SearchResultBounds | src/services/search.service.ts:32-58 | every answer of `SearchResult` is a catalog record scoring in [0.1, 1]; high means at least 0.8, medium [0.7, 0.9); a score below 0.7 or low confidence comes only from the fallback |
| Search.DetermineMatchedFields | src/services/search.service.ts:232-271 | the list built by `push` is `MatchedFields` |
| Search.CalculateCombinedScore | src/services/search.service.ts:296-328 | the score accumulated step by step is the combined score of the Fuse score and the weight of the matched fields |
| Search.CombinedMatch | src/services/search.service.ts:148-180 | the method computes the combined strategy's result |
| Search.GetBestMatch | src/services/search.service.ts:182-208 | the method computes the fallback match |
| Search.SearchService.constructor | src/services/search.service.ts:6-9 | a new service has an empty catalog and no index |
| Search.SearchService.InitializeIndex | src/services/search.service.ts:11-30 | the catalog is replaced and the index rebuilt over it; the index stays well formed over the catalog |
| Search.SearchService.GetIndexStats | src/services/search.service.ts:330-335 | reports the catalog size and whether an index exists |
| Search.SearchService.SearchCompany | src/services/search.service.ts:32-58 | fails with "Search index not initialized" without an index; otherwise the strategy loop with early return yields the cascade's answer |
| Fusion.PhoneUnion | src/services/company.service.ts:177-189 | the merged numbers have no duplicates |
| Fusion.PhoneUnionSpec | src/services/company.service.ts:177-189 | a number is merged exactly when it is in either list; the result is the existing numbers de-duplicated in their order, followed by the scraped numbers not among them, de-duplicated in their order |
| Fusion.AddAll | src/services/company.service.ts:180-186 | adding a list to the set leaves the first-seen de-duplication of everything added so far |
| Fusion.MergePhoneNumbers | src/services/company.service.ts:177-189 | the two `forEach` loops into a set compute `PhoneUnion` |
| Fusion.MergeSocialMediaLinks | src/services/company.service.ts:191-203 | each platform keeps the existing link unless it is missing or empty, then takes the scraped one; `other` is always present, duplicate-free and starts with the existing list |
| Fusion.MergedOtherSpec | src/services/company.service.ts:198-201 | a link is in the merged `other` exactly when it is in the existing or the scraped `other`; the existing links come first in their order, then the scraped links not among them, in theirs |
| Seqs.DedupConcat | src/services/company.service.ts:198-201 | de-duplicating a concatenation keeps the first part de-duplicated, then the second part's elements not in the first, de-duplicated |
| Fusion.FuseRecord | src/services/company.service.ts:160-172 | names and domain never change; without a successful crawl the record is unchanged; with one, phones are unioned, the social links are merged with the crawled links, and address and location keep the record's value unless it is missing or empty |
| Fusion.ScrapedByDomain | src/services/company.service.ts:155-158 | the map has a key for exactly the domains of the batch |
| Fusion.LaterEntryWins | src/services/company.service.ts:155-158 | for a domain crawled more than once, the map holds its last result |
| Fusion.BuildScrapedMap | src/services/company.service.ts:155-158 | the `forEach` that fills the map computes `ScrapedByDomain` |
| Fusion.FuseCatalog | src/services/company.service.ts:152-175 | the merged catalog has the same records in the same order, with the same domains and names |
| Fusion.FuseCatalogChangesOnlyOnSuccess | src/services/company.service.ts:161-171 | a record changes only when the batch's last result for exactly its domain succeeded, and then that result is fused in |
| Fusion.FuseCatalogKeepsUncrawled | src/services/company.service.ts:161-171 | a record whose domain the batch does not mention is left untouched |
| Fusion.OrElseIdempotent | src/services/company.service.ts:167-168 | filling a missing value twice from the same source equals filling it once |
| Fusion.FuseRecordIdempotent | src/services/company.service.ts:160-172 | fusing the same crawl result into a record twice gives the record fused once |
| Fusion.FuseCatalogIdempotent | src/services/company.service.ts:152-175 | merging the same batch twice gives the catalog merged once |
| Fusion.FindByDomain | src/services/company.service.ts:205-207 | nothing is found exactly when no record has that exact domain; a found record has it and is in the catalog |
| Fusion.FindByDomainIsFirst | src/services/company.service.ts:205-207 | the record found is the first with that exact domain |
| Scraper.ClassifyOtherAndIgnored | src/services/scraper.service.ts:130-145 | a link goes to `other` only when it names one of the seven other social domains, and is ignored exactly when it names neither one of them nor any of the six platform domains |
| Scraper.SocialDomainIsOther | src/services/scraper.service.ts:130-145 | a link naming another social domain and no platform domain goes to `other` |
| Scraper.ClassifyIgnoresCase | src/services/scraper.service.ts:130 | the branch taken depends on the link only through its lower-cased form |
| Scraper.CollectLinks | src/services/scraper.service.ts:123-149 | the extracted links always hold an `other` list, no longer than the page's link list |
| Scraper.WithSlot | src/services/scraper.service.ts:127-146 | each listed link is a page link taking the given branch of the chain |
| Scraper.CollectPlatform | src/services/scraper.service.ts:126-142 | each platform field ends up holding the last link of the page taking that platform's branch, or nothing when there is none |
| Scraper.CollectOther | src/services/scraper.service.ts:124-146 | `other` ends up holding every link to another social domain, in page order |
| Scraper.CollectLinksSpec | src/services/scraper.service.ts:123-149 | each platform field holds the last page link for that platform, and `other` holds every link to another social domain, in page order |
| Scraper.CollectedLinksHaveKey | src/services/scraper.service.ts:124 | the extracted links always have the key `other`, even for a page with no link |
| Scraper.DropboxLinkIsTwitter | src/services/scraper.service.ts:134 | because `x.com` is a substring test, `dropbox.com` is classified as a Twitter link |
| Scraper.ExtractSocialMediaLinks | src/services/scraper.service.ts:123-149 | the callback run over the links in order computes `CollectLinks` |
| Scraper.AddressFrom | src/services/scraper.service.ts:151-176 | an address comes from an accepted selector text, which is over ten characters and looks like an address, or from the body match |
| Scraper.AddressFromFirst | src/services/scraper.service.ts:161-169 | the first selector whose trimmed text is accepted decides the address |
| Scraper.AddressFromFallback | src/services/scraper.service.ts:171-175 | with no accepted selector text, the address is the trimmed body match, or none |
| Scraper.ExtractAddress | src/services/scraper.service.ts:151-176 | the selector loop with early return, then the body fallback, computes `AddressFrom` |
| Scraper.StLooksLikeAddress | src/services/scraper.service.ts:191-196 | because keywords are substring tests, any text containing `st` in some letter case and a digit looks like an address |
| Scraper.CleanedStripsOne | src/services/scraper.service.ts:112 | the cleaned match holds only digits and `+`; exactly one leading `1` is removed when present, so a leading `+1` stays |
| Scraper.PhonesFrom | src/services/scraper.service.ts:98-121 | the extracted numbers have no duplicates |
| Scraper.KeptForPatternsMember | src/services/scraper.service.ts:106-118 | a text is collected exactly when some pattern has a match that is kept as it |
| Scraper.PhonesFromSpec | src/services/scraper.service.ts:98-121 | a number is extracted exactly when some pattern matched a text with at least ten digits and `+` after a leading `1` is dropped, and the number is that text trimmed; every extracted number itself passes that test |
| Scraper.KeptMatchesPrefix | src/services/scraper.service.ts:109-116 | one more match adds its kept form to the kept list |
| Scraper.AddKept | src/services/scraper.service.ts:109-116 | one pattern's matches added to the set leave the first-seen de-duplication of all kept matches so far |
| Scraper.ExtractPhoneNumbers | src/services/scraper.service.ts:98-121 | the nested loops into a set compute `PhonesFrom` |
| Scraper.PageUrl | src/services/scraper.service.ts:75 | the visited URL starts with `http`, and is the domain itself when the domain already does |
| Scraper.ScrapedFrom | src/services/scraper.service.ts:59-96 | a failed visit gives an unsuccessful record with no phones, no links, no address and the error message; a successful one has no error message, duplicate-free phones and links with at least one key |
| Scraper.ScrapeSingleWebsite | src/services/scraper.service.ts:59-96 | filling in the initial record step by step computes `ScrapedFrom` |
| Scraper.ScrapeAll | src/services/scraper.service.ts:35-57 | one result per domain, in input order, each from a visit of that domain's URL |
| Scraper.ScrapeWebsites | src/services/scraper.service.ts:35-57 | the batches of ten, each appended in order, give `ScrapeAll`, and the analytics are computed over them |
| Scraper.CalculateAnalytics | src/services/scraper.service.ts:198-215 | the counts are bounded by the batch size; all shares are `NaN` for an empty batch and lie in [0, 100] otherwise; full success gives 100 % coverage |
| Scraper.PercentageMono | src/services/scraper.service.ts:207-211 | a larger count gives a larger percentage of the same whole |
| Scraper.CrawlAnalytics | src/services/scraper.service.ts:198-215 | over a crawl, the social-media fill rate equals the coverage, and the phone and address fill rates never exceed it |
| Service.TestReportOf | src/services/company.service.ts:106-150 | the report counts every input, its successes never exceed them, and the match rate is `NaN` for no inputs and in [0, 100] otherwise |
| Service.TestReportRows | src/services/company.service.ts:127-140 | each row carries its input and the search's answer, and is found exactly when that answer is a match |
| Service.DomainInputsAreFound | src/services/company.service.ts:106-150 | when every input's website names a catalog domain, every input is found and the match rate is 100 % |
| Service.ExactDomainFound | src/services/search.service.ts:60-80 | a website agreeing with some record gives a domain match |
| Service.CountAll | src/services/company.service.ts:142 | when every row is found, the count of found rows is the number of rows |
| Service.MergeKeepsDomainMatch | src/services/company.service.ts:152-175 | fusion keeps domains, so a domain search over the merged catalog finds the merged version of the same record |
| Service.CompanyService.constructor | src/services/company.service.ts:10-19 | a new service has no data, no analytics, and is not initialised |
| Service.CompanyService.InitializeData | src/services/company.service.ts:26-40 | the loaded profiles become the catalog, are indexed, and the service is initialised |
| Service.CompanyService.MergeScrapedData | src/services/company.service.ts:152-175 | the catalog becomes `FuseCatalog` of the old catalog and the crawl results |
| Service.CompanyService.StartScraping | src/services/company.service.ts:42-70 | fails with "Service not initialized" and changes nothing before initialisation; otherwise stores the crawl results and analytics, fuses them into the catalog, rebuilds the index over the fused catalog and reports success |
| Service.CompanyService.SearchCompany | src/services/company.service.ts:72-84 | fails before initialisation; otherwise returns the search's answer over the current catalog |
| Service.CompanyService.TestWithApiSample | src/services/company.service.ts:106-150 | fails before initialisation; otherwise the loop over the sample builds `TestReportOf` |
| Service.CompanyService.GetServiceStatus | src/services/company.service.ts:90-104 | reports the state; the index statistics always agree with it: the indexed count is the catalog size, and an index exists exactly when the service is initialised |
| Service.CompanyService.GetCompanyByDomain | src/services/company.service.ts:205-207 | nothing exactly when no record has that domain, compared without normalisation; a found record has it and is in the catalog |
| Service.CountFound | src/services/company.service.ts:142 | counts the rows marked found |

## Left out

- Fuse.js: its scoring algorithm, thresholds and key weights are not modelled. An index is any function from a query to hits that are catalog records, score in [0, 1] and rank in ascending order.
- Regular expressions and HTML are not modelled. The phone, address and `\s+` patterns, and selector matching, enter as the page's already-computed matches and texts.
  - The normalisers spell out their anchored patterns directly.
  - Name normalisation collapses white-space runs.
- The browser, the clock, CSV loading and logging are not modelled. Pages come from a `browse` function keyed by URL, so visiting a URL twice yields the same page. Durations and the total elapsed time are parameters.
- Concurrency: each batch of ten visits runs concurrently in the source. The model visits them one after another in the same order, which `Promise.all` preserves.
- Exceptions are modelled as `Result` values. An error thrown by an extractor after a successful page load is not modelled; a visit either fails before extraction or succeeds.
- Numbers are modelled as mathematical reals. IEEE rounding, and `NaN` other than 0/0, are not represented.
- `toLowerCase` is modelled for ASCII letters only. Lengths count code points rather than UTF-16 units.
- A present key holding `undefined` is not distinguished from an absent key: both are `None`.
- `getAnalytics`, `getAllCompanies` and `onModuleInit` are plain field reads or a call of `initializeData`, and are not modelled separately.
- The controller, DTO validation, the CSV service and the application bootstrap are not part of this model.
- The domain and phone normalisers are not idempotent, and the scheme match is case-sensitive: each anchored pattern runs once and lower-casing comes last. The model follows the code; the counterexamples are `NormalizeExamples.NormalizeDoubleScheme`, `NormalizeExamples.NormalizeUpperScheme` and `NormalizeExamples.PhoneNormalisationNotIdempotent`.
