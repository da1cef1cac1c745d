/** Data fusion: how the company service folds a batch of crawl results into
    the catalog. A record is enriched only by the crawl of its exact domain,
    and only when that crawl succeeded. Existing non-empty values are kept;
    a missing or empty one takes the crawled value, which may itself be
    missing. Numbers and `other` links are unioned without duplicates. */
module Fusion {
  import opened Wrappers
  import opened Seqs
  import opened Company

  /** `xs || []` for an optional array (an array, even empty, is truthy). */
  function OrEmpty(xs: Option<seq<string>>): seq<string> {
    if xs.Some? then xs.value else []
  }

  /** `mergePhoneNumbers`: the existing numbers, then the scraped ones, each
      kept once in first-seen order, as a `Set` yields them. */
  function PhoneUnion(existing: Option<seq<string>>, scraped: Option<seq<string>>): (r: seq<string>)
    ensures NoDuplicates(r)
  {
    Dedup(OrEmpty(existing) + OrEmpty(scraped))
  }

  /** The merged numbers are exactly the numbers of either list, the
      existing ones first and in their own order. */
  lemma PhoneUnionSpec(existing: Option<seq<string>>, scraped: Option<seq<string>>)
    ensures forall x :: x in PhoneUnion(existing, scraped) <==> x in OrEmpty(existing) || x in OrEmpty(scraped)
    ensures Dedup(OrEmpty(existing)) <= PhoneUnion(existing, scraped)
    ensures NoDuplicates(OrEmpty(existing)) ==> OrEmpty(existing) <= PhoneUnion(existing, scraped)
    ensures PhoneUnion(existing, scraped) ==
            Dedup(OrEmpty(existing)) + Dedup(Without(OrEmpty(scraped), OrEmpty(existing)))
  {
    var e, s := OrEmpty(existing), OrEmpty(scraped);
    var r := PhoneUnion(existing, scraped);
    forall x | x in r ensures x in e || x in s {
      var i :| 0 <= i < |r| && r[i] == x;
      assert x in e + s;
    }
    forall x | x in e || x in s ensures x in r {
      if x in e {
        var i :| 0 <= i < |e| && e[i] == x;
        assert (e + s)[i] == x;
      } else {
        var i :| 0 <= i < |s| && s[i] == x;
        assert (e + s)[|e| + i] == x;
      }
    }
    DedupPrefix(e, s);
    if NoDuplicates(e) {
      DedupOfDistinct(e);
    }
    DedupConcat(e, s);
  }

  /** The set after adding `xs[i]` to the set of `seen + xs[..i]`. */
  lemma AddAllStep(r: seq<string>, seen: seq<string>, xs: seq<string>, i: nat)
    requires i < |xs| && r == Dedup(seen + xs[..i])
    ensures (if xs[i] in r then r else r + [xs[i]]) == Dedup(seen + xs[..i + 1])
  {
    assert seen + xs[..i + 1] == (seen + xs[..i]) + [xs[i]];
    DedupAdd(r, seen + xs[..i], xs[i]);
  }

  /** One `forEach(phone => phoneSet.add(phone))`: the set so far holds the
      numbers of `seen`; afterwards it holds those of `seen + xs`. */
  method AddAll(phones: seq<string>, ghost seen: seq<string>, xs: seq<string>) returns (r: seq<string>)
    requires phones == Dedup(seen)
    ensures r == Dedup(seen + xs)
  {
    r := phones;
    var i := 0;
    assert seen + xs[..0] == seen;
    while i < |xs|
      invariant 0 <= i <= |xs|
      invariant r == Dedup(seen + xs[..i])
    {
      AddAllStep(r, seen, xs, i);
      if xs[i] !in r {
        r := r + [xs[i]];
      }
      i := i + 1;
    }
    assert xs[..i] == xs;
  }

  /** `mergePhoneNumbers`, as the source writes it: every existing number,
      then every scraped one, is added to a set read back in insertion order. */
  method MergePhoneNumbers(existing: Option<seq<string>>, scraped: Option<seq<string>>) returns (phones: seq<string>)
    ensures phones == PhoneUnion(existing, scraped)
  {
    var e := OrEmpty(existing);
    phones := AddAll([], [], e);
    assert [] + e == e;
    phones := AddAll(phones, e, OrEmpty(scraped));
  }

  function FacebookOf(links: Option<SocialMediaLinks>): Option<string> {
    if links.Some? then links.value.facebook else None
  }

  function TwitterOf(links: Option<SocialMediaLinks>): Option<string> {
    if links.Some? then links.value.twitter else None
  }

  function LinkedinOf(links: Option<SocialMediaLinks>): Option<string> {
    if links.Some? then links.value.linkedin else None
  }

  function InstagramOf(links: Option<SocialMediaLinks>): Option<string> {
    if links.Some? then links.value.instagram else None
  }

  function YoutubeOf(links: Option<SocialMediaLinks>): Option<string> {
    if links.Some? then links.value.youtube else None
  }

  /** `existing?.other || []` */
  function OtherOf(links: Option<SocialMediaLinks>): seq<string> {
    if links.Some? then OrEmpty(links.value.other) else []
  }

  /** `mergeSocialMediaLinks`: per platform the existing link unless it is
      missing or empty; `other` always present, both lists merged without
      duplicates. */
  function MergeSocialMediaLinks(existing: Option<SocialMediaLinks>, scraped: Option<SocialMediaLinks>): (r: SocialMediaLinks)
    ensures Truthy(FacebookOf(existing)) ==> r.facebook == FacebookOf(existing)
    ensures !Truthy(FacebookOf(existing)) ==> r.facebook == FacebookOf(scraped)
    ensures Truthy(TwitterOf(existing)) ==> r.twitter == TwitterOf(existing)
    ensures !Truthy(TwitterOf(existing)) ==> r.twitter == TwitterOf(scraped)
    ensures Truthy(LinkedinOf(existing)) ==> r.linkedin == LinkedinOf(existing)
    ensures !Truthy(LinkedinOf(existing)) ==> r.linkedin == LinkedinOf(scraped)
    ensures Truthy(InstagramOf(existing)) ==> r.instagram == InstagramOf(existing)
    ensures !Truthy(InstagramOf(existing)) ==> r.instagram == InstagramOf(scraped)
    ensures Truthy(YoutubeOf(existing)) ==> r.youtube == YoutubeOf(existing)
    ensures !Truthy(YoutubeOf(existing)) ==> r.youtube == YoutubeOf(scraped)
    ensures r.other.Some? && NoDuplicates(r.other.value)
    ensures r.other.Some? && Dedup(OtherOf(existing)) <= r.other.value
  {
    DedupPrefix(OtherOf(existing), OtherOf(scraped));
    SocialMediaLinks(
      OrElse(FacebookOf(existing), FacebookOf(scraped)),
      OrElse(TwitterOf(existing), TwitterOf(scraped)),
      OrElse(LinkedinOf(existing), LinkedinOf(scraped)),
      OrElse(InstagramOf(existing), InstagramOf(scraped)),
      OrElse(YoutubeOf(existing), YoutubeOf(scraped)),
      Some(Dedup(OtherOf(existing) + OtherOf(scraped))))
  }

  /** The merged `other` list holds exactly the links of either list: the
      existing ones first, in their order and each once, then the scraped
      ones not already there, in the order they were scraped. */
  lemma MergedOtherSpec(existing: Option<SocialMediaLinks>, scraped: Option<SocialMediaLinks>)
    ensures forall x :: x in MergeSocialMediaLinks(existing, scraped).other.value <==>
                          x in OtherOf(existing) || x in OtherOf(scraped)
    ensures MergeSocialMediaLinks(existing, scraped).other.value ==
            Dedup(OtherOf(existing)) + Dedup(Without(OtherOf(scraped), OtherOf(existing)))
  {
    var e, s := OtherOf(existing), OtherOf(scraped);
    forall x ensures x in Dedup(e + s) <==> x in e || x in s {
      DedupMember(e + s, x);
    }
    DedupConcat(e, s);
  }

  /** The record after fusing the crawl result the batch holds for its
      domain, if any: unchanged unless that crawl succeeded. */
  function FuseRecord(c: CompanyData, scraped: Option<ScrapedData>): (r: CompanyData)
    ensures r.domain == c.domain && r.commercialName == c.commercialName &&
            r.legalName == c.legalName && r.allNames == c.allNames
    ensures !(scraped.Some? && scraped.value.crawlSuccess) ==> r == c
    ensures scraped.Some? && scraped.value.crawlSuccess ==>
              r.phoneNumbers == Some(PhoneUnion(c.phoneNumbers, Some(scraped.value.phoneNumbers))) &&
              r.socialMediaLinks == Some(MergeSocialMediaLinks(c.socialMediaLinks, Some(scraped.value.socialMediaLinks))) &&
              r.address == OrElse(c.address, scraped.value.address) &&
              r.location == OrElse(c.location, scraped.value.location)
  {
    if scraped.Some? && scraped.value.crawlSuccess then
      var s := scraped.value;
      c.(phoneNumbers := Some(PhoneUnion(c.phoneNumbers, Some(s.phoneNumbers))),
         socialMediaLinks := Some(MergeSocialMediaLinks(c.socialMediaLinks, Some(s.socialMediaLinks))),
         address := OrElse(c.address, s.address),
         location := OrElse(c.location, s.location))
    else c
  }

  /** The map `mergeScrapedData` builds: every crawl result under its domain,
      a later result replacing an earlier one. */
  function ScrapedByDomain(batch: seq<ScrapedData>): (m: map<string, ScrapedData>)
    ensures forall d :: d in m <==> exists k :: 0 <= k < |batch| && batch[k].domain == d
  {
    if batch == [] then map[]
    else
      var m := ScrapedByDomain(batch[..|batch| - 1]);
      m[batch[|batch| - 1].domain := batch[|batch| - 1]]
  }

  /** The map holds, for a domain, the last crawl result of the batch for it. */
  lemma {:induction false} LaterEntryWins(batch: seq<ScrapedData>, k: nat)
    requires k < |batch|
    requires forall j :: k < j < |batch| ==> batch[j].domain != batch[k].domain
    ensures batch[k].domain in ScrapedByDomain(batch)
    ensures ScrapedByDomain(batch)[batch[k].domain] == batch[k]
  {
    if k < |batch| - 1 {
      var init := batch[..|batch| - 1];
      LaterEntryWins(init, k);
    }
  }

  /** The `forEach` that fills the map. */
  method BuildScrapedMap(batch: seq<ScrapedData>) returns (m: map<string, ScrapedData>)
    ensures m == ScrapedByDomain(batch)
  {
    m := map[];
    var i := 0;
    while i < |batch|
      invariant 0 <= i <= |batch|
      invariant m == ScrapedByDomain(batch[..i])
    {
      assert batch[..i + 1][..i] == batch[..i];
      m := m[batch[i].domain := batch[i]];
      i := i + 1;
    }
    assert batch[..i] == batch;
  }

  /** `map.get(domain)` */
  function Lookup(m: map<string, ScrapedData>, domain: string): Option<ScrapedData> {
    if domain in m then Some(m[domain]) else None
  }

  /** The catalog after `mergeScrapedData`: the same records in the same
      order, each fused with the batch's last crawl result for its domain. */
  function FuseCatalog(companies: seq<CompanyData>, batch: seq<ScrapedData>): (r: seq<CompanyData>)
    ensures |r| == |companies|
    ensures forall i :: 0 <= i < |r| ==>
              r[i].domain == companies[i].domain && r[i].commercialName == companies[i].commercialName &&
              r[i].legalName == companies[i].legalName && r[i].allNames == companies[i].allNames
  {
    var m := ScrapedByDomain(batch);
    seq(|companies|, i requires 0 <= i < |companies| => FuseRecord(companies[i], Lookup(m, companies[i].domain)))
  }

  /** The first `n` records of `companies` fused, each with the result `m`
      holds for its domain: what the `map` callback has produced so far. */
  ghost predicate FusedUpTo(merged: seq<CompanyData>, companies: seq<CompanyData>,
                            m: map<string, ScrapedData>, n: nat) {
    |merged| == n <= |companies| &&
    forall k :: 0 <= k < n ==> merged[k] == FuseRecord(companies[k], Lookup(m, companies[k].domain))
  }

  lemma FusedUpToStep(merged: seq<CompanyData>, companies: seq<CompanyData>,
                      m: map<string, ScrapedData>, i: nat, fused: CompanyData)
    requires i < |companies| && FusedUpTo(merged, companies, m, i)
    requires fused == FuseRecord(companies[i], Lookup(m, companies[i].domain))
    ensures FusedUpTo(merged + [fused], companies, m, i + 1)
  {
    var r := merged + [fused];
    forall k | 0 <= k < i ensures r[k] == merged[k] {
    }
  }

  lemma FusedUpToCatalog(merged: seq<CompanyData>, companies: seq<CompanyData>, batch: seq<ScrapedData>)
    requires FusedUpTo(merged, companies, ScrapedByDomain(batch), |companies|)
    ensures merged == FuseCatalog(companies, batch)
  {
  }

  /** A record changes only when the batch's last crawl result for exactly
      its domain succeeded; then that result is the one fused in. */
  lemma FuseCatalogChangesOnlyOnSuccess(companies: seq<CompanyData>, batch: seq<ScrapedData>, i: nat)
    requires i < |companies|
    ensures var m := ScrapedByDomain(batch);
            var r := FuseCatalog(companies, batch);
            if companies[i].domain in m && m[companies[i].domain].crawlSuccess
            then r[i] == FuseRecord(companies[i], Some(m[companies[i].domain]))
            else r[i] == companies[i]
  {
  }

  /** A domain absent from the batch, or crawled without success by the last
      entry for it, leaves its record untouched. */
  lemma FuseCatalogKeepsUncrawled(companies: seq<CompanyData>, batch: seq<ScrapedData>, i: nat)
    requires i < |companies|
    requires forall k :: 0 <= k < |batch| ==> batch[k].domain != companies[i].domain
    ensures FuseCatalog(companies, batch)[i] == companies[i]
  {
  }

  lemma OrElseIdempotent(a: Option<string>, b: Option<string>)
    ensures OrElse(OrElse(a, b), b) == OrElse(a, b)
  {
  }

  /** Fusing the same crawl result into a fused record changes nothing. */
  lemma FuseRecordIdempotent(c: CompanyData, scraped: Option<ScrapedData>)
    ensures FuseRecord(FuseRecord(c, scraped), scraped) == FuseRecord(c, scraped)
  {
    if scraped.Some? && scraped.value.crawlSuccess {
      var s := scraped.value;
      var f := FuseRecord(c, scraped);
      DedupMergeIdempotent(OrEmpty(c.phoneNumbers), s.phoneNumbers);
      DedupMergeIdempotent(OtherOf(c.socialMediaLinks), OtherOf(Some(s.socialMediaLinks)));
      var l := MergeSocialMediaLinks(c.socialMediaLinks, Some(s.socialMediaLinks));
      assert MergeSocialMediaLinks(Some(l), Some(s.socialMediaLinks)) == l;
    }
  }

  /** Running the merge twice with the same batch gives the catalog the first
      run gave. */
  lemma FuseCatalogIdempotent(companies: seq<CompanyData>, batch: seq<ScrapedData>)
    ensures FuseCatalog(FuseCatalog(companies, batch), batch) == FuseCatalog(companies, batch)
  {
    var once := FuseCatalog(companies, batch);
    var m := ScrapedByDomain(batch);
    forall i | 0 <= i < |once|
      ensures FuseCatalog(once, batch)[i] == once[i]
    {
      FuseRecordIdempotent(companies[i], Lookup(m, companies[i].domain));
    }
  }

  /** `getCompanyByDomain`: the first record whose domain is exactly `domain`. */
  function FindByDomain(companies: seq<CompanyData>, domain: string): (r: Option<CompanyData>)
    ensures r.None? <==> forall k :: 0 <= k < |companies| ==> companies[k].domain != domain
    ensures r.Some? ==> r.value.domain == domain && r.value in companies
  {
    Find(companies, (c: CompanyData) => c.domain == domain)
  }

  lemma FindByDomainIsFirst(companies: seq<CompanyData>, domain: string, k: nat)
    requires k < |companies| && companies[k].domain == domain
    requires forall j :: 0 <= j < k ==> companies[j].domain != domain
    ensures FindByDomain(companies, domain) == Some(companies[k])
  {
    FindFirst(companies, (c: CompanyData) => c.domain == domain, k);
  }
}
