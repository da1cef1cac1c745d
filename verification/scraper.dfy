/** The website crawler: what it extracts from a fetched page (phone numbers,
    social-media links, a postal address) and the analytics over a batch.
    The browser, the HTML parser and the regular-expression engine are not
    modelled: a fetched page is given as what those produce. */
module Scraper {
  import opened Wrappers
  import opened Seqs
  import opened Strings
  import opened Company
  import Normalize

  /** The four phone regular expressions, in the order they are applied. */
  datatype PhonePattern = ParenthesisedArea | LeadingOne | International | Separated

  const PhonePatterns: seq<PhonePattern> := [ParenthesisedArea, LeadingOne, International, Separated]

  /** The six address selectors, in the order they are tried. */
  const AddressSelectors: seq<string> := [
    "[itemtype*=\"PostalAddress\"]", ".address", ".location", ".contact-address",
    "*[class*=\"address\"]", "*[class*=\"location\"]"]

  /** A fetched page as the extractors see it:
      `phoneMatches(p)` is `content.match(p)` over the raw HTML (no match: `[]`);
      `hrefs` the `href` attribute of every `a[href]`, in document order;
      `firstText(sel)` the text of the first element `sel` selects, if any;
      `bodyAddressMatch` the first match of the address pattern in the body text. */
  datatype PageContent = PageContent(
    phoneMatches: PhonePattern -> seq<string>,
    hrefs: seq<string>,
    firstText: string -> Option<string>,
    bodyAddressMatch: Option<string>)

  /** One browser visit: the page, or the message of the error it raised,
      and the time the visit took. */
  datatype Visit = Visit(page: Result<PageContent, string>, durationMs: int)

  // ---------------------------------------------------------------------------
  // Social-media links

  /** The social domains outside the five platforms with their own field. */
  const SocialDomains: seq<string> := [
    "pinterest.com", "snapchat.com", "tiktok.com", "discord.com", "reddit.com", "tumblr.com", "telegram.org"]

  /** `isSocialMediaLink`: the lower-cased URL mentions one of the other social domains. */
  predicate IsSocialMediaLink(url: string) {
    exists i :: 0 <= i < |SocialDomains| && Contains(url, SocialDomains[i])
  }

  datatype LinkSlot = FacebookSlot | TwitterSlot | LinkedinSlot | InstagramSlot | YoutubeSlot | OtherSlot | Ignored

  /** The branch of the `if`/`else if` chain a link takes: the first platform
      whose domain the lower-cased link contains. */
  function Classify(href: string): LinkSlot {
    var url := ToLower(href);
    if Contains(url, "facebook.com") then FacebookSlot
    else if Contains(url, "twitter.com") || Contains(url, "x.com") then TwitterSlot
    else if Contains(url, "linkedin.com") then LinkedinSlot
    else if Contains(url, "instagram.com") then InstagramSlot
    else if Contains(url, "youtube.com") then YoutubeSlot
    else if IsSocialMediaLink(url) then OtherSlot
    else Ignored
  }

  /** The links start out as `{ other: [] }`. */
  const EmptyLinks := SocialMediaLinks(None, None, None, None, None, Some([]))

  /** The branch a link of the page takes; an empty `href` is skipped. */
  function SlotOf(href: string): LinkSlot {
    if href == "" then Ignored else Classify(href)
  }

  /** The body of the `each` callback for one link, once its branch is known. */
  function AddLink(links: SocialMediaLinks, href: string, slot: LinkSlot): SocialMediaLinks {
    match slot
    case FacebookSlot => links.(facebook := Some(href))
    case TwitterSlot => links.(twitter := Some(href))
    case LinkedinSlot => links.(linkedin := Some(href))
    case InstagramSlot => links.(instagram := Some(href))
    case YoutubeSlot => links.(youtube := Some(href))
    case OtherSlot => links.(other := Some((if links.other.Some? then links.other.value else []) + [href]))
    case Ignored => links
  }

  /** The links after the callback has run over `hrefs`. */
  function CollectLinks(hrefs: seq<string>): (r: SocialMediaLinks)
    ensures r.other.Some? && |r.other.value| <= |hrefs|
  {
    if hrefs == [] then EmptyLinks
    else
      var last := hrefs[|hrefs| - 1];
      AddLink(CollectLinks(hrefs[..|hrefs| - 1]), last, SlotOf(last))
  }

  /** The links of `hrefs` that take branch `slot`, in document order. */
  function WithSlot(hrefs: seq<string>, slot: LinkSlot): (r: seq<string>)
    ensures |r| <= |hrefs|
    ensures forall i :: 0 <= i < |r| ==> SlotOf(r[i]) == slot && r[i] in hrefs
  {
    if hrefs == [] then []
    else
      var last := hrefs[|hrefs| - 1];
      WithSlot(hrefs[..|hrefs| - 1], slot) + (if SlotOf(last) == slot then [last] else [])
  }

  /** The last element, if any. */
  function Last(xs: seq<string>): Option<string> {
    if xs == [] then None else Some(xs[|xs| - 1])
  }

  predicate IsPlatform(slot: LinkSlot) {
    slot != OtherSlot && slot != Ignored
  }

  /** The field of `links` a platform slot writes. */
  function PlatformField(links: SocialMediaLinks, slot: LinkSlot): Option<string>
    requires IsPlatform(slot)
  {
    match slot
    case FacebookSlot => links.facebook
    case TwitterSlot => links.twitter
    case LinkedinSlot => links.linkedin
    case InstagramSlot => links.instagram
    case YoutubeSlot => links.youtube
  }

  lemma AddLinkPlatform(links: SocialMediaLinks, href: string, s: LinkSlot, slot: LinkSlot)
    requires IsPlatform(slot)
    ensures PlatformField(AddLink(links, href, s), slot) == if s == slot then Some(href) else PlatformField(links, slot)
  {
  }

  /** A platform field ends up holding the last link of that platform. */
  lemma {:induction false} CollectPlatform(hrefs: seq<string>, slot: LinkSlot)
    requires IsPlatform(slot)
    ensures PlatformField(CollectLinks(hrefs), slot) == Last(WithSlot(hrefs, slot))
  {
    if hrefs != [] {
      var init := hrefs[..|hrefs| - 1];
      var last := hrefs[|hrefs| - 1];
      CollectPlatform(init, slot);
      AddLinkPlatform(CollectLinks(init), last, SlotOf(last), slot);
    }
  }

  /** `other` ends up holding every link to another social domain, in order. */
  lemma {:induction false} CollectOther(hrefs: seq<string>)
    ensures CollectLinks(hrefs).other == Some(WithSlot(hrefs, OtherSlot))
  {
    if hrefs != [] {
      var init := hrefs[..|hrefs| - 1];
      var last := hrefs[|hrefs| - 1];
      CollectOther(init);
      assert CollectLinks(hrefs) == AddLink(CollectLinks(init), last, SlotOf(last));
      assert WithSlot(hrefs, OtherSlot) == WithSlot(init, OtherSlot) + (if SlotOf(last) == OtherSlot then [last] else []);
      if SlotOf(last) == OtherSlot {
        assert CollectLinks(hrefs).other == Some(WithSlot(init, OtherSlot) + [last]);
      } else {
        assert CollectLinks(hrefs).other == CollectLinks(init).other;
        assert WithSlot(hrefs, OtherSlot) == WithSlot(init, OtherSlot);
      }
    }
  }

  /** `extractSocialMediaLinks`: each platform field holds the LAST link of
      the page for that platform (a later link overwrites an earlier one),
      and `other` holds every link to another social domain, in order; `other`
      is present even when empty. */
  lemma CollectLinksSpec(hrefs: seq<string>)
    ensures CollectLinks(hrefs).facebook == Last(WithSlot(hrefs, FacebookSlot))
    ensures CollectLinks(hrefs).twitter == Last(WithSlot(hrefs, TwitterSlot))
    ensures CollectLinks(hrefs).linkedin == Last(WithSlot(hrefs, LinkedinSlot))
    ensures CollectLinks(hrefs).instagram == Last(WithSlot(hrefs, InstagramSlot))
    ensures CollectLinks(hrefs).youtube == Last(WithSlot(hrefs, YoutubeSlot))
    ensures CollectLinks(hrefs).other == Some(WithSlot(hrefs, OtherSlot))
  {
    CollectPlatform(hrefs, FacebookSlot);
    CollectPlatform(hrefs, TwitterSlot);
    CollectPlatform(hrefs, LinkedinSlot);
    CollectPlatform(hrefs, InstagramSlot);
    CollectPlatform(hrefs, YoutubeSlot);
    CollectOther(hrefs);
  }

  /** The extracted links always have the key `other`, so
      `Object.keys(links).length > 0` holds for every page, even a page with
      no link at all. */
  lemma CollectedLinksHaveKey(hrefs: seq<string>)
    ensures HasAnyKey(CollectLinks(hrefs))
  {
    CollectLinksSpec(hrefs);
  }

  /** The domains of the five platforms with a field of their own. */
  const PlatformDomains: seq<string> := [
    "facebook.com", "twitter.com", "x.com", "linkedin.com", "instagram.com", "youtube.com"]

  /** A link goes to `other` only when it mentions one of the other social
      domains, and is ignored exactly when it mentions no social domain at all. */
  lemma ClassifyOtherAndIgnored(href: string)
    ensures Classify(href) == OtherSlot ==> IsSocialMediaLink(ToLower(href))
    ensures Classify(href) == Ignored <==>
              !IsSocialMediaLink(ToLower(href)) &&
              forall k :: 0 <= k < |PlatformDomains| ==> !Contains(ToLower(href), PlatformDomains[k])
  {
    var url := ToLower(href);
    if Classify(href) != Ignored && !IsSocialMediaLink(url) {
      var k := if Contains(url, "facebook.com") then 0
               else if Contains(url, "twitter.com") then 1
               else if Contains(url, "x.com") then 2
               else if Contains(url, "linkedin.com") then 3
               else if Contains(url, "instagram.com") then 4
               else 5;
      assert Contains(url, PlatformDomains[k]);
    }
  }

  /** A link mentioning one of the other social domains, and none of the
      platforms, is filed under `other`. */
  lemma SocialDomainIsOther(href: string, i: nat)
    requires i < |SocialDomains| && Contains(ToLower(href), SocialDomains[i])
    requires forall k :: 0 <= k < |PlatformDomains| ==> !Contains(ToLower(href), PlatformDomains[k])
    ensures Classify(href) == OtherSlot
  {
    var url := ToLower(href);
    assert !Contains(url, PlatformDomains[0]) && !Contains(url, PlatformDomains[1]) &&
           !Contains(url, PlatformDomains[2]) && !Contains(url, PlatformDomains[3]) &&
           !Contains(url, PlatformDomains[4]) && !Contains(url, PlatformDomains[5]);
  }

  /** The classification reads the link in lower case only. */
  lemma ClassifyIgnoresCase(href: string)
    ensures Classify(ToLower(href)) == Classify(href)
  {
    ToLowerIdempotent(href);
  }

  /** `"x.com"` is matched as a substring, so a Dropbox link lands in the
      `twitter` field. */
  lemma DropboxLinkIsTwitter()
    ensures Classify("dropbox.com") == TwitterSlot
  {
    var s := "dropbox.com";
    LowerFixed(s);
    assert !Occurs(s, "twitter.com", 0) by { assert s[0] != "twitter.com"[0]; }
    assert Occurs(s, "x.com", 6);
    ContainsIff(s, "x.com");
  }

  /** `extractSocialMediaLinks`: the callback run over the links in order. */
  method ExtractSocialMediaLinks(hrefs: seq<string>) returns (links: SocialMediaLinks)
    ensures links == CollectLinks(hrefs)
  {
    links := EmptyLinks;
    var i := 0;
    while i < |hrefs|
      invariant 0 <= i <= |hrefs|
      invariant links == CollectLinks(hrefs[..i])
    {
      var href := hrefs[i];
      assert hrefs[..i + 1][..i] == hrefs[..i];
      if href != "" {
        var url := ToLower(href);
        if Contains(url, "facebook.com") {
          links := links.(facebook := Some(href));
        } else if Contains(url, "twitter.com") || Contains(url, "x.com") {
          links := links.(twitter := Some(href));
        } else if Contains(url, "linkedin.com") {
          links := links.(linkedin := Some(href));
        } else if Contains(url, "instagram.com") {
          links := links.(instagram := Some(href));
        } else if Contains(url, "youtube.com") {
          links := links.(youtube := Some(href));
        } else if IsSocialMediaLink(url) {
          var other := if links.other.Some? then links.other.value else [];
          links := links.(other := Some(other + [href]));
        }
      }
      i := i + 1;
    }
    assert hrefs[..i] == hrefs;
  }

  // ---------------------------------------------------------------------------
  // Address

  const AddressKeywords: seq<string> := [
    "street", "st", "avenue", "ave", "road", "rd", "boulevard", "blvd", "drive", "dr", "suite", "apt"]

  /** `looksLikeAddress`: some keyword occurs in the lower-cased text, and the
      text has a digit. */
  predicate LooksLikeAddress(text: string) {
    (exists k :: 0 <= k < |AddressKeywords| && Contains(ToLower(text), AddressKeywords[k])) &&
    (exists i :: 0 <= i < |text| && IsDigit(text[i]))
  }

  /** The keyword `st` is matched anywhere in the text, so any text with a
      digit and the letters `st` in any case, as in `first` or `best`,
      looks like an address. */
  lemma StLooksLikeAddress(text: string, i: int, j: nat)
    requires Occurs(ToLower(text), "st", i)
    requires j < |text| && IsDigit(text[j])
    ensures LooksLikeAddress(text)
  {
    ContainsIff(ToLower(text), "st");
    assert AddressKeywords[1] == "st";
  }

  /** A selector's text is taken when, trimmed, it is longer than ten
      characters and looks like an address. */
  predicate AcceptsAddress(text: string) {
    |text| > 10 && LooksLikeAddress(text)
  }

  /** The trimmed text of `sel`'s first element, if that element exists and
      its text is accepted. */
  function CandidateAt(page: PageContent, sel: string): Option<string> {
    match page.firstText(sel)
    case None => None
    case Some(text) => if AcceptsAddress(Trim(text)) then Some(Trim(text)) else None
  }

  /** The result of `extractAddress` once the selectors before `sels` were
      rejected. */
  function AddressFrom(page: PageContent, sels: seq<string>): (r: Option<string>)
    ensures r.Some? ==> AcceptsAddress(r.value) || page.bodyAddressMatch.Some?
  {
    if sels == [] then
      (if page.bodyAddressMatch.Some? then Some(Trim(page.bodyAddressMatch.value)) else None)
    else if CandidateAt(page, sels[0]).Some? then CandidateAt(page, sels[0])
    else AddressFrom(page, sels[1..])
  }

  /** The first selector with an accepted text decides the address. */
  lemma {:induction false} AddressFromFirst(page: PageContent, sels: seq<string>, k: nat)
    requires k < |sels| && CandidateAt(page, sels[k]).Some?
    requires forall j :: 0 <= j < k ==> CandidateAt(page, sels[j]).None?
    ensures AddressFrom(page, sels) == CandidateAt(page, sels[k])
  {
    if k > 0 {
      assert CandidateAt(page, sels[0]).None?;
      AddressFromFirst(page, sels[1..], k - 1);
    }
  }

  /** With no accepted selector text, the trimmed body match is the address
      (or there is none). */
  lemma {:induction false} AddressFromFallback(page: PageContent, sels: seq<string>)
    requires forall j :: 0 <= j < |sels| ==> CandidateAt(page, sels[j]).None?
    ensures AddressFrom(page, sels) ==
              if page.bodyAddressMatch.Some? then Some(Trim(page.bodyAddressMatch.value)) else None
  {
    if sels != [] {
      AddressFromFallback(page, sels[1..]);
    }
  }

  /** `extractAddress`: the selector loop with its early return, then the
      body-text fallback. */
  method ExtractAddress(page: PageContent) returns (address: Option<string>)
    ensures address == AddressFrom(page, AddressSelectors)
  {
    var i := 0;
    while i < |AddressSelectors|
      invariant 0 <= i <= |AddressSelectors|
      invariant AddressFrom(page, AddressSelectors[i..]) == AddressFrom(page, AddressSelectors)
    {
      var element := page.firstText(AddressSelectors[i]);
      assert AddressSelectors[i..][0] == AddressSelectors[i];
      assert AddressSelectors[i..][1..] == AddressSelectors[i + 1..];
      if element.Some? {
        var text := Trim(element.value);
        if |text| > 10 && LooksLikeAddress(text) {
          return Some(text);
        }
      }
      i := i + 1;
    }
    if page.bodyAddressMatch.Some? {
      address := Some(Trim(page.bodyAddressMatch.value));
    } else {
      address := None;
    }
  }

  // ---------------------------------------------------------------------------
  // Phone numbers

  /** `match.replace(/[^\d+]/g, '').replace(/^1/, '')` */
  function Cleaned(m: string): string {
    Normalize.StripLeadingOne(DigitsAndPlusOf(m))
  }

  /** The cleaned match holds only digits and `+`; one leading `1` is dropped
      exactly when the digits and pluses start with it, so `+1` is kept. */
  lemma CleanedStripsOne(m: string)
    ensures forall i :: 0 <= i < |Cleaned(m)| ==> IsDigit(Cleaned(m)[i]) || Cleaned(m)[i] == '+'
    ensures StartsWith(DigitsAndPlusOf(m), "1") ==> DigitsAndPlusOf(m) == "1" + Cleaned(m)
    ensures !StartsWith(DigitsAndPlusOf(m), "1") ==> Cleaned(m) == DigitsAndPlusOf(m)
  {
    var d := DigitsAndPlusOf(m);
    if StartsWith(d, "1") {
      assert d == d[..1] + d[1..];
    }
  }

  /** A match is kept when its cleaned form has at least ten characters. */
  predicate LongEnough(m: string) {
    |Cleaned(m)| >= 10
  }

  /** What one match adds to the set: its trimmed text when it is kept. */
  function Kept(m: string): seq<string> {
    if LongEnough(m) then [Trim(m)] else []
  }

  /** The kept matches of one pattern, in order, repeats included. */
  function KeptMatches(ms: seq<string>): seq<string> {
    FlatMap(ms, Kept)
  }

  /** The kept matches of every pattern in `pats`, pattern after pattern. */
  function KeptForPatterns(page: PageContent, pats: seq<PhonePattern>): seq<string> {
    FlatMap(pats, (p: PhonePattern) => KeptMatches(page.phoneMatches(p)))
  }

  /** `extractPhoneNumbers`: the kept matches, each once, in the order the
      set first saw them. */
  function PhonesFrom(page: PageContent): (r: seq<string>)
    ensures NoDuplicates(r)
  {
    Dedup(KeptForPatterns(page, PhonePatterns))
  }

  /** Some pattern matched a text that is kept as `x`. */
  predicate KeptBy(page: PageContent, x: string) {
    exists i, j :: 0 <= i < |PhonePatterns| && 0 <= j < |page.phoneMatches(PhonePatterns[i])| &&
      x in Kept(page.phoneMatches(PhonePatterns[i])[j])
  }

  lemma KeptForPatternsMember(page: PageContent, x: string)
    ensures x in KeptForPatterns(page, PhonePatterns) <==> KeptBy(page, x)
  {
    var f := (p: PhonePattern) => KeptMatches(page.phoneMatches(p));
    FlatMapMember(PhonePatterns, f, x);
    forall i | 0 <= i < |PhonePatterns|
      ensures x in f(PhonePatterns[i]) <==>
                exists j :: 0 <= j < |page.phoneMatches(PhonePatterns[i])| && x in Kept(page.phoneMatches(PhonePatterns[i])[j])
    {
      FlatMapMember(page.phoneMatches(PhonePatterns[i]), Kept, x);
    }
  }

  /** A number is extracted exactly when some pattern matched a text whose
      cleaned form is long enough and whose trimmed form is that number; and
      every extracted number still has ten or more digits and `+` signs
      after a leading `1` is dropped. */
  lemma PhonesFromSpec(page: PageContent, x: string)
    ensures x in PhonesFrom(page) <==>
              exists i, j :: 0 <= i < |PhonePatterns| && 0 <= j < |page.phoneMatches(PhonePatterns[i])| &&
                LongEnough(page.phoneMatches(PhonePatterns[i])[j]) && Trim(page.phoneMatches(PhonePatterns[i])[j]) == x
    ensures x in PhonesFrom(page) ==> |Cleaned(x)| >= 10
  {
    DedupMember(KeptForPatterns(page, PhonePatterns), x);
    KeptForPatternsMember(page, x);
    if x in PhonesFrom(page) {
      var i, j :| 0 <= i < |PhonePatterns| && 0 <= j < |page.phoneMatches(PhonePatterns[i])| &&
        x in Kept(page.phoneMatches(PhonePatterns[i])[j]);
      TrimKeepsDigitsAndPlus(page.phoneMatches(PhonePatterns[i])[j]);
    }
    forall i, j | 0 <= i < |PhonePatterns| && 0 <= j < |page.phoneMatches(PhonePatterns[i])|
      ensures x in Kept(page.phoneMatches(PhonePatterns[i])[j]) <==>
                LongEnough(page.phoneMatches(PhonePatterns[i])[j]) && Trim(page.phoneMatches(PhonePatterns[i])[j]) == x
    {
    }
  }

  lemma KeptMatchesPrefix(ms: seq<string>, j: nat)
    requires j < |ms|
    ensures KeptMatches(ms[..j + 1]) == KeptMatches(ms[..j]) + Kept(ms[j])
  {
    FlatMapPrefix(ms, j, Kept);
  }

  /** The set after the callback has run on `ms[j]`. */
  lemma AddKeptStep(r: seq<string>, seen: seq<string>, ms: seq<string>, j: nat)
    requires j < |ms| && r == Dedup(seen + KeptMatches(ms[..j]))
    ensures LongEnough(ms[j]) ==>
              (if Trim(ms[j]) in r then r else r + [Trim(ms[j])]) == Dedup(seen + KeptMatches(ms[..j + 1]))
    ensures !LongEnough(ms[j]) ==> r == Dedup(seen + KeptMatches(ms[..j + 1]))
  {
    var k, m := KeptMatches(ms[..j]), ms[j];
    KeptMatchesPrefix(ms, j);
    AppendAssoc(seen, k, Kept(m));
    if LongEnough(m) {
      assert Kept(m) == [Trim(m)];
      DedupAdd(r, seen + k, Trim(m));
    } else {
      assert Kept(m) == [];
      assert (seen + k) + [] == seen + k;
    }
  }

  /** One `matches.forEach`: the set so far holds the numbers of `seen`. */
  method AddKept(phones: seq<string>, ghost seen: seq<string>, ms: seq<string>) returns (r: seq<string>)
    requires phones == Dedup(seen)
    ensures r == Dedup(seen + KeptMatches(ms))
  {
    r := phones;
    var j := 0;
    assert ms[..0] == [];
    assert seen + KeptMatches(ms[..0]) == seen;
    while j < |ms|
      invariant 0 <= j <= |ms|
      invariant r == Dedup(seen + KeptMatches(ms[..j]))
    {
      var m := ms[j];
      AddKeptStep(r, seen, ms, j);
      var cleaned := Normalize.StripLeadingOne(DigitsAndPlusOf(m));
      if |cleaned| >= 10 {
        var t := Trim(m);
        if t !in r {
          r := r + [t];
        }
      }
      j := j + 1;
    }
    assert ms[..j] == ms;
  }

  /** `extractPhoneNumbers`: every pattern in turn, every match of it in
      turn, into one set. */
  method ExtractPhoneNumbers(page: PageContent) returns (phones: seq<string>)
    ensures phones == PhonesFrom(page)
  {
    ghost var f := (p: PhonePattern) => KeptMatches(page.phoneMatches(p));
    phones := [];
    var i := 0;
    while i < |PhonePatterns|
      invariant 0 <= i <= |PhonePatterns|
      invariant phones == Dedup(FlatMap(PhonePatterns[..i], f))
    {
      var pattern := PhonePatterns[i];
      assert PhonePatterns[..i + 1] == PhonePatterns[..i] + [pattern];
      FlatMapSnoc(PhonePatterns[..i], pattern, f);
      phones := AddKept(phones, FlatMap(PhonePatterns[..i], f), page.phoneMatches(pattern));
      i := i + 1;
    }
    assert PhonePatterns[..i] == PhonePatterns;
  }

  // ---------------------------------------------------------------------------
  // Crawling

  /** The URL visited for a domain: the domain itself when it already starts
      with `http`, otherwise `https://` in front of it. */
  function PageUrl(domain: string): (url: string)
    ensures StartsWith(url, "http")
    ensures StartsWith(domain, "http") ==> url == domain
  {
    if StartsWith(domain, "http") then domain
    else
      assert ("https://" + domain)[..4] == "http";
      "https://" + domain
  }

  /** The record `scrapeSingleWebsite` returns for a visit. */
  function ScrapedFrom(domain: string, visit: Visit): (r: ScrapedData)
    ensures r.domain == domain && r.crawlDurationMs == visit.durationMs && r.location == None
    ensures r.crawlSuccess <==> visit.page.Success?
    ensures !r.crawlSuccess ==> r.phoneNumbers == [] && r.socialMediaLinks == NoLinks && r.address == None &&
                                r.errorMessage == Some(visit.page.error)
    ensures r.crawlSuccess ==> r.errorMessage == None && NoDuplicates(r.phoneNumbers) &&
                               HasAnyKey(r.socialMediaLinks)
  {
    match visit.page
    case Failure(msg) => ScrapedData(domain, [], NoLinks, None, None, false, visit.durationMs, Some(msg))
    case Success(page) =>
      CollectedLinksHaveKey(page.hrefs);
      ScrapedData(domain, PhonesFrom(page), CollectLinks(page.hrefs), AddressFrom(page, AddressSelectors),
                  None, true, visit.durationMs, None)
  }

  /** `scrapeSingleWebsite`: start from an unsuccessful record, fill it in
      from the page, or record the error; then the duration. */
  method ScrapeSingleWebsite(domain: string, visit: Visit) returns (result: ScrapedData)
    ensures result == ScrapedFrom(domain, visit)
  {
    result := ScrapedData(domain, [], NoLinks, None, None, false, 0, None);
    match visit.page {
      case Success(page) =>
        var phones := ExtractPhoneNumbers(page);
        var links := ExtractSocialMediaLinks(page.hrefs);
        var address := ExtractAddress(page);
        result := result.(phoneNumbers := phones, socialMediaLinks := links, address := address,
                          crawlSuccess := true);
      case Failure(msg) =>
        result := result.(errorMessage := Some(msg));
    }
    result := result.(crawlDurationMs := visit.durationMs);
  }

  /** The crawl results of `scrapeWebsites`: one per domain, in the input
      order, each from a visit of that domain's URL. */
  function ScrapeAll(domains: seq<string>, browse: string -> Visit): (r: seq<ScrapedData>)
    ensures |r| == |domains|
    ensures forall k :: 0 <= k < |r| ==> r[k] == ScrapedFrom(domains[k], browse(PageUrl(domains[k]))) && r[k].domain == domains[k]
  {
    seq(|domains|, k requires 0 <= k < |domains| => ScrapedFrom(domains[k], browse(PageUrl(domains[k]))))
  }

  function Min(a: int, b: int): int {
    if a <= b then a else b
  }

  const BatchSize := 10

  /** One more domain adds its crawl result at the end. */
  lemma ScrapeAllStep(domains: seq<string>, browse: string -> Visit, n: nat)
    requires n < |domains|
    ensures ScrapeAll(domains[..n + 1], browse) ==
              ScrapeAll(domains[..n], browse) + [ScrapedFrom(domains[n], browse(PageUrl(domains[n])))]
  {
    var a := ScrapeAll(domains[..n + 1], browse);
    var b := ScrapeAll(domains[..n], browse) + [ScrapedFrom(domains[n], browse(PageUrl(domains[n])))];
    assert forall k :: 0 <= k < |a| ==> a[k] == b[k];
  }

  /** `scrapeWebsites`: the domains in batches of ten, each batch's results
      appended in the batch's order; then the analytics over all results. */
  method ScrapeWebsites(domains: seq<string>, browse: string -> Visit, elapsedMs: int)
    returns (data: seq<ScrapedData>, analytics: AnalyticsData)
    ensures data == ScrapeAll(domains, browse)
    ensures analytics == CalculateAnalytics(data, elapsedMs)
  {
    data := [];
    var i := 0;
    assert domains[..0] == [];
    while i < |domains|
      invariant 0 <= i
      invariant |data| == Min(i, |domains|)
      invariant data == ScrapeAll(domains[..|data|], browse)
    {
      var batch := domains[i..Min(i + BatchSize, |domains|)];
      var j := 0;
      while j < |batch|
        invariant 0 <= j <= |batch|
        invariant |data| == i + j
        invariant data == ScrapeAll(domains[..i + j], browse)
      {
        assert batch[j] == domains[i + j];
        ScrapeAllStep(domains, browse, i + j);
        var r := ScrapeSingleWebsite(batch[j], browse(PageUrl(batch[j])));
        data := data + [r];
        j := j + 1;
      }
      i := i + BatchSize;
    }
    assert domains[..|data|] == domains;
    analytics := CalculateAnalytics(data, elapsedMs);
  }

  // ---------------------------------------------------------------------------
  // Analytics

  predicate Crawled(r: ScrapedData) { r.crawlSuccess }
  predicate HasPhones(r: ScrapedData) { |r.phoneNumbers| > 0 }
  predicate HasSocial(r: ScrapedData) { HasAnyKey(r.socialMediaLinks) }
  predicate HasAddress(r: ScrapedData) { Truthy(r.address) }

  /** `calculateAnalytics`: counts over the batch and their shares of it, in
      percent; an empty batch gives `NaN` shares (0/0). */
  function CalculateAnalytics(results: seq<ScrapedData>, totalTimeMs: int): (a: AnalyticsData)
    ensures a.totalWebsites == |results| && a.totalProcessingTimeMs == totalTimeMs
    ensures a.successfullyCrawled <= |results|
    ensures a.successfullyCrawled == |results| ==> results == [] || a.coveragePercentage == Percent(100.0)
    ensures results == [] <==> a.coveragePercentage == NaN
    ensures results != [] ==>
              a.coveragePercentage.Percent? && 0.0 <= a.coveragePercentage.value <= 100.0 &&
              a.fillRates.phoneNumbers.Percent? && 0.0 <= a.fillRates.phoneNumbers.value <= 100.0 &&
              a.fillRates.socialMedia.Percent? && 0.0 <= a.fillRates.socialMedia.value <= 100.0 &&
              a.fillRates.address.Percent? && 0.0 <= a.fillRates.address.value <= 100.0
  {
    var n := |results|;
    AnalyticsData(
      n,
      Count(results, Crawled),
      Percentage(Count(results, Crawled), n),
      FillRates(Percentage(Count(results, HasPhones), n),
                Percentage(Count(results, HasSocial), n),
                Percentage(Count(results, HasAddress), n)),
      totalTimeMs)
  }

  lemma PercentageMono(a: nat, b: nat, whole: nat)
    requires a <= b && whole > 0
    ensures Percentage(a, whole).value <= Percentage(b, whole).value
  {
    var w := whole as real;
    assert a as real / w <= b as real / w;
  }

  /** Over the results of a crawl, a failed visit yields an empty record, so
      no fill rate exceeds the coverage; and since every successful visit
      yields links with the key `other`, the social-media fill rate is
      exactly the coverage. */
  lemma CrawlAnalytics(domains: seq<string>, browse: string -> Visit, elapsedMs: int)
    requires domains != []
    ensures var a := CalculateAnalytics(ScrapeAll(domains, browse), elapsedMs);
            a.fillRates.socialMedia == a.coveragePercentage &&
            a.fillRates.phoneNumbers.value <= a.coveragePercentage.value &&
            a.fillRates.address.value <= a.coveragePercentage.value
  {
    var data := ScrapeAll(domains, browse);
    var n := |data|;
    forall i | 0 <= i < n
      ensures HasSocial(data[i]) <==> Crawled(data[i])
      ensures HasPhones(data[i]) ==> Crawled(data[i])
      ensures HasAddress(data[i]) ==> Crawled(data[i])
    {
      var r := ScrapedFrom(domains[i], browse(PageUrl(domains[i])));
      assert data[i] == r;
    }
    CountSame(data, HasSocial, Crawled);
    CountMono(data, HasPhones, Crawled);
    CountMono(data, HasAddress, Crawled);
    PercentageMono(Count(data, HasPhones), Count(data, Crawled), n);
    PercentageMono(Count(data, HasAddress), Count(data, Crawled), n);
  }
}
