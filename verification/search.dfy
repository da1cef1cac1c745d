/** The search service: a cascade of matching strategies over the company
    catalog and a fuzzy index built from it. The fuzzy index (Fuse.js in the
    source) is not modelled internally: it is a function from a query to its
    ranked hits, and what the service relies on is stated as `IndexOver`. */
module Search {
  import opened Wrappers
  import opened Seqs
  import opened Strings
  import opened Company
  import opened Normalize

  /** One result of `fuse.search(query)`: a record and its score, 0 being a
      perfect match and 1 a total mismatch. */
  datatype Hit = Hit(item: CompanyData, score: real)

  /** A built fuzzy index: the hits of a query, best first. */
  type FuzzyIndex = string -> seq<Hit>

  /** Hits drawn from `cs`, scored in [0, 1], in ascending score order. */
  ghost predicate RankedHits(hits: seq<Hit>, cs: seq<CompanyData>) {
    (forall i :: 0 <= i < |hits| ==> hits[i].item in cs && 0.0 <= hits[i].score <= 1.0) &&
    (forall i, j :: 0 <= i < j < |hits| ==> hits[i].score <= hits[j].score)
  }

  /** An index built over `cs` answers every query with ranked hits from `cs`. */
  ghost predicate IndexOver(index: FuzzyIndex, cs: seq<CompanyData>) {
    forall q :: RankedHits(index(q), cs)
  }

  /** `new Fuse(cs, options)` builds an index over `cs`. */
  ghost predicate BuildsRankedIndex(build: seq<CompanyData> -> FuzzyIndex) {
    forall cs :: IndexOver(build(cs), cs)
  }

  // ---------------------------------------------------------------------
  // Field agreement between the search parameters and a record

  predicate SameDomain(c: CompanyData, domain: string) {
    NormalizeDomain(c.domain) == domain
  }

  /** `c.phone_numbers?.some(p => normalizePhone(p) === phone)` */
  predicate HasPhone(c: CompanyData, phone: string) {
    c.phoneNumbers.Some? &&
    exists i | 0 <= i < |c.phoneNumbers.value| :: NormalizePhone(c.phoneNumbers.value[i]) == phone
  }

  /** `c.social_media_links?.facebook && normalizeFacebookUrl(...) === url` */
  predicate HasFacebook(c: CompanyData, url: string) {
    c.socialMediaLinks.Some? && Truthy(c.socialMediaLinks.value.facebook) &&
    NormalizeFacebookUrl(c.socialMediaLinks.value.facebook.value) == url
  }

  /** The record's names that are present and non-empty, in field order. */
  function CompanyNames(c: CompanyData): seq<string> {
    TruthyValues([c.commercialName, c.legalName, c.allNames])
  }

  /** `.filter(Boolean)` on optional strings. */
  function TruthyValues(xs: seq<Option<string>>): (r: seq<string>)
    ensures |r| <= |xs|
  {
    if xs == [] then []
    else (if Truthy(xs[0]) then [xs[0].value] else []) + TruthyValues(xs[1..])
  }

  /** The values kept are exactly the present, non-empty ones. */
  lemma {:induction false} TruthyValuesKeep(xs: seq<Option<string>>)
    ensures forall i :: 0 <= i < |TruthyValues(xs)| ==> TruthyValues(xs)[i] != ""
    ensures forall i :: 0 <= i < |xs| && Truthy(xs[i]) ==> xs[i].value in TruthyValues(xs)
    ensures TruthyValues(xs) == [] <==> forall i :: 0 <= i < |xs| ==> !Truthy(xs[i])
    ensures forall v :: v in TruthyValues(xs) ==> exists i :: 0 <= i < |xs| && Truthy(xs[i]) && xs[i].value == v
  {
    if xs != [] {
      TruthyValuesKeep(xs[1..]);
      assert forall i :: 1 <= i < |xs| ==> xs[i] == xs[1..][i - 1];
    }
  }

  /** The filter works entry by entry, keeping the input's order: filtering a
      concatenation concatenates the filtered parts, and a single entry is
      kept exactly when it is truthy. */
  lemma {:induction false} TruthyValuesAppend(xs: seq<Option<string>>, ys: seq<Option<string>>)
    ensures TruthyValues(xs + ys) == TruthyValues(xs) + TruthyValues(ys)
  {
    if xs == [] {
      assert xs + ys == ys;
    } else {
      var head := if Truthy(xs[0]) then [xs[0].value] else [];
      TruthyValuesAppend(xs[1..], ys);
      assert (xs + ys)[0] == xs[0];
      assert (xs + ys)[1..] == xs[1..] + ys;
      assert TruthyValues(xs + ys) == head + (TruthyValues(xs[1..]) + TruthyValues(ys));
      assert TruthyValues(xs) == head + TruthyValues(xs[1..]);
    }
  }

  lemma TruthyValuesSingle(x: Option<string>)
    ensures TruthyValues([x]) == if Truthy(x) then [x.value] else []
  {
    assert [x][1..] == [];
  }

  /** Every present, non-empty name of the record is compared. */
  lemma CompanyNamesPresent(c: CompanyData)
    ensures Truthy(c.commercialName) ==> c.commercialName.value in CompanyNames(c)
    ensures Truthy(c.legalName) ==> c.legalName.value in CompanyNames(c)
    ensures Truthy(c.allNames) ==> c.allNames.value in CompanyNames(c)
    ensures forall i :: 0 <= i < |CompanyNames(c)| ==> CompanyNames(c)[i] != ""
  {
    var xs := [c.commercialName, c.legalName, c.allNames];
    TruthyValuesKeep(xs);
    assert xs[0] == c.commercialName && xs[1] == c.legalName && xs[2] == c.allNames;
  }

  predicate DomainAgrees(p: SearchParams, c: CompanyData) {
    Truthy(p.website) && c.domain != "" && SameDomain(c, NormalizeDomain(p.website.value))
  }

  predicate PhoneAgrees(p: SearchParams, c: CompanyData) {
    Truthy(p.phone) && HasPhone(c, NormalizePhone(p.phone.value))
  }

  predicate FacebookAgrees(p: SearchParams, c: CompanyData) {
    Truthy(p.facebook) && HasFacebook(c, NormalizeFacebookUrl(p.facebook.value))
  }

  /** `names.some(n => isNameSimilar(name, n))` */
  predicate AnySimilar(name: string, names: seq<string>) {
    exists i | 0 <= i < |names| :: IsNameSimilar(name, names[i])
  }

  predicate NameAgrees(p: SearchParams, c: CompanyData) {
    Truthy(p.name) && AnySimilar(p.name.value, CompanyNames(c))
  }

  /** The position of each field in `matched_fields`. */
  function Rank(f: MatchedField): nat {
    match f
    case Domain => 0
    case Phone => 1
    case Facebook => 2
    case Name => 3
  }

  /** The fields whose flag is set, once each, in the order domain, phone,
      facebook, name. */
  function FieldsWhere(domain: bool, phone: bool, facebook: bool, name: bool): (r: seq<MatchedField>)
    ensures Domain in r <==> domain
    ensures Phone in r <==> phone
    ensures Facebook in r <==> facebook
    ensures Name in r <==> name
    ensures forall i, j :: 0 <= i < j < |r| ==> Rank(r[i]) < Rank(r[j])
  {
    (if domain then [Domain] else []) + (if phone then [Phone] else []) +
    (if facebook then [Facebook] else []) + (if name then [Name] else [])
  }

  /** The fields `determineMatchedFields` reports: each field agreeing between
      the parameters and the record, once, in the order domain, phone,
      facebook, name. */
  function MatchedFields(p: SearchParams, c: CompanyData): (r: seq<MatchedField>)
    ensures Domain in r <==> DomainAgrees(p, c)
    ensures Phone in r <==> PhoneAgrees(p, c)
    ensures Facebook in r <==> FacebookAgrees(p, c)
    ensures Name in r <==> NameAgrees(p, c)
    ensures forall i, j :: 0 <= i < j < |r| ==> Rank(r[i]) < Rank(r[j])
  {
    FieldsWhere(DomainAgrees(p, c), PhoneAgrees(p, c), FacebookAgrees(p, c), NameAgrees(p, c))
  }

  /** A field is reported only when the parameter it compares is present and
      non-empty, and no field is reported twice. */
  lemma MatchedFieldsNeedParameters(p: SearchParams, c: CompanyData)
    ensures Domain in MatchedFields(p, c) ==> Truthy(p.website)
    ensures Phone in MatchedFields(p, c) ==> Truthy(p.phone)
    ensures Facebook in MatchedFields(p, c) ==> Truthy(p.facebook)
    ensures Name in MatchedFields(p, c) ==> Truthy(p.name)
    ensures NoDuplicates(MatchedFields(p, c))
  {
    var r := MatchedFields(p, c);
    forall i, j | 0 <= i < j < |r| ensures r[i] != r[j] {
      assert Rank(r[i]) < Rank(r[j]);
    }
  }

  // ---------------------------------------------------------------------
  // Scores

  /** The weight the combined score gives to an agreeing field. */
  function FieldWeight(f: MatchedField): real {
    match f
    case Domain => 0.3
    case Phone => 0.25
    case Facebook => 0.2
    case Name => 0.0
  }

  function WeightOf(fields: seq<MatchedField>): (w: real)
    ensures w >= 0.0
  {
    if fields == [] then 0.0 else FieldWeight(fields[0]) + WeightOf(fields[1..])
  }

  lemma {:induction false} WeightOfAppend(a: seq<MatchedField>, b: seq<MatchedField>)
    ensures WeightOf(a + b) == WeightOf(a) + WeightOf(b)
  {
    if a == [] {
      assert a + b == b;
    } else {
      assert (a + b)[1..] == a[1..] + b;
      WeightOfAppend(a[1..], b);
    }
  }

  /** The bonus `calculateCombinedScore` adds for agreeing fields. */
  function Bonus(p: SearchParams, c: CompanyData): real {
    BonusWhere(DomainAgrees(p, c), PhoneAgrees(p, c), FacebookAgrees(p, c))
  }

  function BonusWhere(domain: bool, phone: bool, facebook: bool): real {
    (if domain then 0.3 else 0.0) + (if phone then 0.25 else 0.0) + (if facebook then 0.2 else 0.0)
  }

  lemma BonusWhereIsWeight(domain: bool, phone: bool, facebook: bool, name: bool)
    ensures BonusWhere(domain, phone, facebook) == WeightOf(FieldsWhere(domain, phone, facebook, name))
  {
    var d: seq<MatchedField> := if domain then [Domain] else [];
    var ph: seq<MatchedField> := if phone then [Phone] else [];
    var f: seq<MatchedField> := if facebook then [Facebook] else [];
    var n: seq<MatchedField> := if name then [Name] else [];
    assert FieldsWhere(domain, phone, facebook, name) == d + ph + f + n;
    WeightOfAppend(d + ph + f, n);
    WeightOfAppend(d + ph, f);
    WeightOfAppend(d, ph);
    WeightOfOptional(domain, Domain);
    WeightOfOptional(phone, Phone);
    WeightOfOptional(facebook, Facebook);
    WeightOfOptional(name, Name);
  }

  lemma WeightOfOptional(b: bool, f: MatchedField)
    ensures WeightOf(if b then [f] else []) == if b then FieldWeight(f) else 0.0
  {
    if b {
      assert [f][1..] == [];
    }
  }

  /** The bonus is exactly the weight of the reported fields: 0.3 for the
      domain, 0.25 for a phone, 0.2 for Facebook and nothing for the name. */
  lemma BonusIsWeightOfMatchedFields(p: SearchParams, c: CompanyData)
    ensures Bonus(p, c) == WeightOf(MatchedFields(p, c))
  {
    BonusWhereIsWeight(DomainAgrees(p, c), PhoneAgrees(p, c), FacebookAgrees(p, c), NameAgrees(p, c));
  }

  /** `Math.min(1, (1 - s + bonus) / (1 + bonus))`: in [0, 1] and never below
      the fuzzy similarity `1 - s`; without a bonus, the fuzzy similarity. */
  function CombinedScore(fuseScore: real, bonus: real): (r: real)
    requires bonus >= 0.0
    ensures 0.0 <= fuseScore <= 1.0 ==> 1.0 - fuseScore <= r <= 1.0 && 0.0 <= r
    ensures bonus == 0.0 && fuseScore >= 0.0 ==> r == 1.0 - fuseScore
  {
    var x := (1.0 - fuseScore + bonus) / (1.0 + bonus);
    CombinedScoreBounds(fuseScore, bonus);
    if x < 1.0 then x else 1.0
  }

  lemma CombinedScoreIs(s: real, b: real)
    requires b >= 0.0
    ensures var x := (1.0 - s + b) / (1.0 + b);
            CombinedScore(s, b) == if x < 1.0 then x else 1.0
  {
  }

  /** A larger bonus never lowers the combined score: a field that agrees
      can only raise the score of a hit. */
  lemma CombinedScoreMonotone(s: real, b: real, b': real)
    requires 0.0 <= s && 0.0 <= b <= b'
    ensures CombinedScore(s, b) <= CombinedScore(s, b')
  {
    var x := (1.0 - s + b) / (1.0 + b);
    var x' := (1.0 - s + b') / (1.0 + b');
    assert x == 1.0 - s / (1.0 + b) by { RatioAsDifference(s, b); }
    assert x' == 1.0 - s / (1.0 + b') by { RatioAsDifference(s, b'); }
    DivAntitone(s, 1.0 + b, 1.0 + b');
    CombinedScoreIs(s, b);
    CombinedScoreIs(s, b');
  }

  lemma RatioAsDifference(s: real, b: real)
    requires b >= 0.0
    ensures (1.0 - s + b) / (1.0 + b) == 1.0 - s / (1.0 + b)
  {
    var k := 1.0 + b;
    var q, t := (1.0 - s + b) / k, s / k;
    assert q * k == 1.0 - s + b && t * k == s;
    var d := q - (1.0 - t);
    assert d * k == 0.0;
    if d > 0.0 {
      MulStrict(0.0, d, k);
    } else if d < 0.0 {
      MulStrict(d, 0.0, k);
    }
  }

  lemma DivAntitone(s: real, u: real, v: real)
    requires 0.0 <= s && 0.0 < u <= v
    ensures s / v <= s / u
  {
    var p, q := s / v, s / u;
    assert p * v == s && q * u == s;
    assert p >= 0.0;
    assert p * u <= p * v;
    if p > q {
      MulStrict(q, p, u);
    }
  }

  lemma CombinedScoreBounds(s: real, b: real)
    requires b >= 0.0
    ensures 0.0 <= s ==> (1.0 - s + b) / (1.0 + b) >= 1.0 - s
    ensures s <= 1.0 ==> (1.0 - s + b) / (1.0 + b) >= 0.0
  {
    var x := (1.0 - s + b) / (1.0 + b);
    assert x * (1.0 + b) == 1.0 - s + b;
    if 0.0 <= s {
      assert (1.0 - s) * (1.0 + b) == 1.0 - s + b - s * b;
      assert s * b >= 0.0;
      if x < 1.0 - s {
        MulStrict(x, 1.0 - s, 1.0 + b);
      }
    }
  }

  lemma MulStrict(x: real, y: real, k: real)
    requires x < y && k > 0.0
    ensures x * k < y * k
  {
  }

  /** The confidence the combined strategy derives from its score. */
  function Tier(score: real): (c: Confidence)
    ensures c == High <==> score >= 0.8
    ensures c == Low <==> score < 0.6
  {
    if score >= 0.8 then High else if score >= 0.6 then Medium else Low
  }

  function Max(a: real, b: real): real { if a >= b then a else b }

  // ---------------------------------------------------------------------
  // Strategies

  /** `exactDomainMatch` */
  function ExactDomainMatch(cs: seq<CompanyData>, p: SearchParams): (r: Option<CompanyMatch>)
    ensures r.None? <==> !Truthy(p.website) ||
                         forall k :: 0 <= k < |cs| ==> !SameDomain(cs[k], NormalizeDomain(p.website.value))
    ensures r.Some? ==> r.value.company in cs && r.value.matchScore == MatchScore(1.0, [Domain], High)
  {
    if !Truthy(p.website) then None
    else
      var d := NormalizeDomain(p.website.value);
      match Find(cs, (c: CompanyData) => SameDomain(c, d))
      case None => None
      case Some(c) => Some(CompanyMatch(c, MatchScore(1.0, [Domain], High)))
  }

  /** The domain strategy returns the first record whose normalised domain
      equals the normalised website. */
  lemma ExactDomainMatchIsFirst(cs: seq<CompanyData>, p: SearchParams, k: nat)
    requires Truthy(p.website) && k < |cs| && SameDomain(cs[k], NormalizeDomain(p.website.value))
    requires forall j :: 0 <= j < k ==> !SameDomain(cs[j], NormalizeDomain(p.website.value))
    ensures ExactDomainMatch(cs, p) == Some(CompanyMatch(cs[k], MatchScore(1.0, [Domain], High)))
  {
    var d := NormalizeDomain(p.website.value);
    FindFirst(cs, (c: CompanyData) => SameDomain(c, d), k);
  }

  /** `exactPhoneMatch` */
  function ExactPhoneMatch(cs: seq<CompanyData>, p: SearchParams): (r: Option<CompanyMatch>)
    ensures r.None? <==> !Truthy(p.phone) ||
                         forall k :: 0 <= k < |cs| ==> !HasPhone(cs[k], NormalizePhone(p.phone.value))
    ensures r.Some? ==> r.value.company in cs && r.value.matchScore == MatchScore(0.95, [Phone], High)
  {
    if !Truthy(p.phone) then None
    else
      var n := NormalizePhone(p.phone.value);
      match Find(cs, (c: CompanyData) => HasPhone(c, n))
      case None => None
      case Some(c) => Some(CompanyMatch(c, MatchScore(0.95, [Phone], High)))
  }

  /** The phone strategy returns the first record listing a number that
      normalises to the normalised input. */
  lemma ExactPhoneMatchIsFirst(cs: seq<CompanyData>, p: SearchParams, k: nat)
    requires Truthy(p.phone) && k < |cs| && HasPhone(cs[k], NormalizePhone(p.phone.value))
    requires forall j :: 0 <= j < k ==> !HasPhone(cs[j], NormalizePhone(p.phone.value))
    ensures ExactPhoneMatch(cs, p) == Some(CompanyMatch(cs[k], MatchScore(0.95, [Phone], High)))
  {
    var n := NormalizePhone(p.phone.value);
    FindFirst(cs, (c: CompanyData) => HasPhone(c, n), k);
  }

  /** `exactFacebookMatch` */
  function ExactFacebookMatch(cs: seq<CompanyData>, p: SearchParams): (r: Option<CompanyMatch>)
    ensures r.None? <==> !Truthy(p.facebook) ||
                         forall k :: 0 <= k < |cs| ==> !HasFacebook(cs[k], NormalizeFacebookUrl(p.facebook.value))
    ensures r.Some? ==> r.value.company in cs && r.value.matchScore == MatchScore(0.9, [Facebook], High)
  {
    if !Truthy(p.facebook) then None
    else
      var u := NormalizeFacebookUrl(p.facebook.value);
      match Find(cs, (c: CompanyData) => HasFacebook(c, u))
      case None => None
      case Some(c) => Some(CompanyMatch(c, MatchScore(0.9, [Facebook], High)))
  }

  /** The Facebook strategy returns the first record whose Facebook URL
      normalises to the normalised input. */
  lemma ExactFacebookMatchIsFirst(cs: seq<CompanyData>, p: SearchParams, k: nat)
    requires Truthy(p.facebook) && k < |cs| && HasFacebook(cs[k], NormalizeFacebookUrl(p.facebook.value))
    requires forall j :: 0 <= j < k ==> !HasFacebook(cs[j], NormalizeFacebookUrl(p.facebook.value))
    ensures ExactFacebookMatch(cs, p) == Some(CompanyMatch(cs[k], MatchScore(0.9, [Facebook], High)))
  {
    var u := NormalizeFacebookUrl(p.facebook.value);
    FindFirst(cs, (c: CompanyData) => HasFacebook(c, u), k);
  }

  /** `fuzzyNameMatch`: the best hit for the name, kept when its score is at
      most 0.3; the match score is `1 - s`, high confidence when `s <= 0.1`. */
  function FuzzyNameMatch(index: FuzzyIndex, p: SearchParams): (r: Option<CompanyMatch>)
    ensures r.Some? <==> Truthy(p.name) && |index(p.name.value)| > 0 && index(p.name.value)[0].score <= 0.3
    ensures r.Some? ==> var s := index(p.name.value)[0].score;
                        r.value.company == index(p.name.value)[0].item &&
                        r.value.matchScore.score == 1.0 - s && r.value.matchScore.score >= 0.7 &&
                        r.value.matchScore.matchedFields == [Name] &&
                        (r.value.matchScore.confidence == High <==> s <= 0.1) &&
                        r.value.matchScore.confidence != Low
  {
    if !Truthy(p.name) then None
    else
      var hits := index(p.name.value);
      if |hits| > 0 && hits[0].score <= 0.3 then
        var s := hits[0].score;
        Some(CompanyMatch(hits[0].item, MatchScore(1.0 - s, [Name], if s <= 0.1 then High else Medium)))
      else None
  }

  /** The parts of the query of `combinedMatch`: the parameters, the website
      normalised. */
  function CombinedQueryParts(p: SearchParams): seq<Option<string>> {
    [p.name, if Truthy(p.website) then Some(NormalizeDomain(p.website.value)) else None, p.phone, p.facebook]
  }

  /** The query of `combinedMatch`: its present parts joined with spaces. */
  function CombinedQuery(p: SearchParams): string {
    Join(TruthyValues(CombinedQueryParts(p)), " ")
  }

  /** The query of `getBestMatch`: the present parameters as given, joined
      with spaces. */
  function FallbackQuery(p: SearchParams): string {
    Join(TruthyValues([p.name, p.website, p.phone, p.facebook]), " ")
  }

  /** Joining non-empty parts gives the empty string only for no parts. */
  lemma JoinTruthyEmpty(xs: seq<Option<string>>)
    ensures Join(TruthyValues(xs), " ") == "" <==> forall i :: 0 <= i < |xs| ==> !Truthy(xs[i])
  {
    TruthyValuesKeep(xs);
    JoinEmpty(TruthyValues(xs), " ");
  }

  /** The fallback query is empty exactly when no parameter is present; the
      combined query also when the only one present is a website that
      normalises to nothing (such as `http://`). */
  lemma QueriesEmpty(p: SearchParams)
    ensures FallbackQuery(p) == "" <==>
              !Truthy(p.name) && !Truthy(p.website) && !Truthy(p.phone) && !Truthy(p.facebook)
    ensures CombinedQuery(p) == "" <==>
              !Truthy(p.name) && !Truthy(p.phone) && !Truthy(p.facebook) &&
              (!Truthy(p.website) || NormalizeDomain(p.website.value) == "")
  {
    var xs := [p.name, p.website, p.phone, p.facebook];
    JoinTruthyEmpty(xs);
    assert xs[0] == p.name && xs[1] == p.website && xs[2] == p.phone && xs[3] == p.facebook;
    var ys := CombinedQueryParts(p);
    JoinTruthyEmpty(ys);
    assert ys[0] == p.name && ys[2] == p.phone && ys[3] == p.facebook;
  }

  /** `combinedMatch`, given the query's hits: the best hit with the
      combined score and its tier. */
  function CombinedMatchOf(index: FuzzyIndex, p: SearchParams): Option<CompanyMatch> {
    var q := CombinedQuery(p);
    if q == "" then None
    else
      var hits := index(q);
      if |hits| == 0 then None
      else Some(CombinedMatchFor(p, hits[0]))
  }

  /** The match the combined strategy reports for its best hit. */
  function CombinedMatchFor(p: SearchParams, hit: Hit): CompanyMatch {
    var score := CombinedScore(hit.score, Bonus(p, hit.item));
    CompanyMatch(hit.item, MatchScore(score, MatchedFields(p, hit.item), Tier(score)))
  }

  /** The combined strategy answers exactly when its query is non-empty and
      has a hit; it reports the best hit, the fields that agree with it and
      the tier of its score, which lies between `1 - s` and 1. */
  lemma CombinedMatchShape(cs: seq<CompanyData>, index: FuzzyIndex, p: SearchParams)
    requires IndexOver(index, cs)
    ensures var r := CombinedMatchOf(index, p);
            r.Some? <==> CombinedQuery(p) != "" && |index(CombinedQuery(p))| > 0
    ensures var r := CombinedMatchOf(index, p);
            r.Some? ==> var hit := index(CombinedQuery(p))[0];
                        r.value.company == hit.item && hit.item in cs &&
                        1.0 - hit.score <= r.value.matchScore.score <= 1.0 &&
                        r.value.matchScore.matchedFields == MatchedFields(p, hit.item) &&
                        r.value.matchScore.confidence == Tier(r.value.matchScore.score)
  {
    assert RankedHits(index(CombinedQuery(p)), cs);
  }

  /** `getBestMatch`, given the query's hits: the best hit with score
      `max(0.1, 1 - s)` and low confidence. */
  function BestMatchOf(index: FuzzyIndex, p: SearchParams): Option<CompanyMatch> {
    var q := FallbackQuery(p);
    if q == "" then None
    else
      var hits := index(q);
      if |hits| == 0 then None
      else Some(FallbackMatch(p, hits[0]))
  }

  /** The match the fallback reports for its best hit. */
  function FallbackMatch(p: SearchParams, hit: Hit): CompanyMatch {
    CompanyMatch(hit.item, MatchScore(Max(0.1, 1.0 - hit.score), MatchedFields(p, hit.item), Low))
  }

  /** The fallback answers exactly when its query is non-empty and has a hit;
      it reports the best hit with low confidence, the fields that agree with
      it and a score in [0.1, 1] that is at least `1 - s`. */
  lemma BestMatchShape(cs: seq<CompanyData>, index: FuzzyIndex, p: SearchParams)
    requires IndexOver(index, cs)
    ensures var r := BestMatchOf(index, p);
            r.Some? <==> FallbackQuery(p) != "" && |index(FallbackQuery(p))| > 0
    ensures var r := BestMatchOf(index, p);
            r.Some? ==> var hit := index(FallbackQuery(p))[0];
                        r.value.company == hit.item && hit.item in cs &&
                        0.1 <= r.value.matchScore.score <= 1.0 &&
                        r.value.matchScore.score >= 1.0 - hit.score &&
                        r.value.matchScore.matchedFields == MatchedFields(p, hit.item) &&
                        r.value.matchScore.confidence == Low
  {
    assert RankedHits(index(FallbackQuery(p)), cs);
  }

  // ---------------------------------------------------------------------
  // The cascade

  datatype Strategy = ExactDomain | ExactPhone | ExactFacebook | FuzzyName | Combined

  /** The strategies in the order `searchCompany` tries them. */
  const Strategies: seq<Strategy> := [ExactDomain, ExactPhone, ExactFacebook, FuzzyName, Combined]

  function RunStrategy(st: Strategy, cs: seq<CompanyData>, index: FuzzyIndex, p: SearchParams): Option<CompanyMatch> {
    match st
    case ExactDomain => ExactDomainMatch(cs, p)
    case ExactPhone => ExactPhoneMatch(cs, p)
    case ExactFacebook => ExactFacebookMatch(cs, p)
    case FuzzyName => FuzzyNameMatch(index, p)
    case Combined => CombinedMatchOf(index, p)
  }

  /** The cascade takes a strategy's result when it scores at least 0.7. */
  predicate Accepted(r: Option<CompanyMatch>) {
    r.Some? && r.value.matchScore.score >= 0.7
  }

  function CascadeFrom(cs: seq<CompanyData>, index: FuzzyIndex, p: SearchParams, k: nat): Option<CompanyMatch>
    requires k <= |Strategies|
    decreases |Strategies| - k
  {
    if k == |Strategies| then BestMatchOf(index, p)
    else
      var r := RunStrategy(Strategies[k], cs, index, p);
      if Accepted(r) then r else CascadeFrom(cs, index, p, k + 1)
  }

  /** The result of `searchCompany` on an initialised index. */
  function SearchResult(cs: seq<CompanyData>, index: FuzzyIndex, p: SearchParams): Option<CompanyMatch> {
    CascadeFrom(cs, index, p, 0)
  }

  lemma {:induction false} CascadeFromFirstAccepted(cs: seq<CompanyData>, index: FuzzyIndex, p: SearchParams, from: nat, k: nat)
    requires from <= k <= |Strategies|
    requires forall j :: from <= j < k ==> !Accepted(RunStrategy(Strategies[j], cs, index, p))
    ensures CascadeFrom(cs, index, p, from) == CascadeFrom(cs, index, p, k)
    decreases k - from
  {
    if from < k {
      CascadeFromFirstAccepted(cs, index, p, from + 1, k);
    }
  }

  /** The search returns the result of the first strategy, in the order
      domain, phone, Facebook, name, combined, whose result scores at least
      0.7; when none does, the fallback's result. */
  lemma CascadeFirstAccepted(cs: seq<CompanyData>, index: FuzzyIndex, p: SearchParams, k: nat)
    requires k <= |Strategies|
    requires forall j :: 0 <= j < k ==> !Accepted(RunStrategy(Strategies[j], cs, index, p))
    ensures k < |Strategies| && Accepted(RunStrategy(Strategies[k], cs, index, p)) ==>
              SearchResult(cs, index, p) == RunStrategy(Strategies[k], cs, index, p)
    ensures k == |Strategies| ==> SearchResult(cs, index, p) == BestMatchOf(index, p)
  {
    CascadeFromFirstAccepted(cs, index, p, 0, k);
  }

  /** A website whose normalised form is some record's normalised domain
      decides the search: the first such record, score 1.0, matched on the
      domain, high confidence. */
  lemma DomainHitWins(cs: seq<CompanyData>, index: FuzzyIndex, p: SearchParams, k: nat)
    requires Truthy(p.website) && k < |cs| && SameDomain(cs[k], NormalizeDomain(p.website.value))
    requires forall j :: 0 <= j < k ==> !SameDomain(cs[j], NormalizeDomain(p.website.value))
    ensures SearchResult(cs, index, p) == Some(CompanyMatch(cs[k], MatchScore(1.0, [Domain], High)))
  {
    ExactDomainMatchIsFirst(cs, p, k);
    CascadeFirstAccepted(cs, index, p, 0);
  }

  /** A name the index ranks first with score at most 0.3 is accepted as soon
      as no exact strategy matched. */
  lemma FuzzyHitAccepted(cs: seq<CompanyData>, index: FuzzyIndex, p: SearchParams)
    requires ExactDomainMatch(cs, p).None? && ExactPhoneMatch(cs, p).None? && ExactFacebookMatch(cs, p).None?
    requires FuzzyNameMatch(index, p).Some?
    ensures SearchResult(cs, index, p) == FuzzyNameMatch(index, p)
  {
    CascadeFirstAccepted(cs, index, p, 3);
  }

  /** With no parameter present, the search finds nothing, whatever the index
      answers: no strategy consults it. */
  lemma EmptyQueryNoMatch(cs: seq<CompanyData>, index: FuzzyIndex, p: SearchParams)
    requires !Truthy(p.name) && !Truthy(p.website) && !Truthy(p.phone) && !Truthy(p.facebook)
    ensures SearchResult(cs, index, p) == None
  {
    JoinTruthyEmpty(CombinedQueryParts(p));
    JoinTruthyEmpty([p.name, p.website, p.phone, p.facebook]);
    CascadeFirstAccepted(cs, index, p, |Strategies|);
  }

  /** What a strategy can return over a well-formed index: a catalog record,
      a score in [0, 1] and a confidence consistent with it. */
  lemma StrategyResultBounds(st: Strategy, cs: seq<CompanyData>, index: FuzzyIndex, p: SearchParams)
    requires IndexOver(index, cs)
    ensures var r := RunStrategy(st, cs, index, p);
            r.Some? ==> r.value.company in cs && 0.0 <= r.value.matchScore.score <= 1.0 &&
                        (r.value.matchScore.confidence == High ==> r.value.matchScore.score >= 0.8) &&
                        (r.value.matchScore.confidence == Medium ==> 0.6 <= r.value.matchScore.score < 0.9) &&
                        (r.value.matchScore.confidence == Low ==> r.value.matchScore.score < 0.6)
  {
    match st
    case FuzzyName =>
      if Truthy(p.name) {
        assert RankedHits(index(p.name.value), cs);
      }
    case Combined =>
      var q := CombinedQuery(p);
      assert RankedHits(index(q), cs);
      if q != "" && |index(q)| > 0 {
        BonusIsWeightOfMatchedFields(p, index(q)[0].item);
      }
    case _ =>
  }

  /** The bounds every answer of the search obeys; `fallback` is the
      fallback's answer. */
  predicate AnswerBounds(r: Option<CompanyMatch>, cs: seq<CompanyData>, fallback: Option<CompanyMatch>) {
    r.Some? ==> r.value.company in cs && 0.1 <= r.value.matchScore.score <= 1.0 &&
                (r.value.matchScore.confidence == High ==> r.value.matchScore.score >= 0.8) &&
                (r.value.matchScore.confidence == Medium ==> 0.7 <= r.value.matchScore.score < 0.9) &&
                (r.value.matchScore.score < 0.7 || r.value.matchScore.confidence == Low ==> r == fallback)
  }

  lemma {:induction false} CascadeFromBounds(cs: seq<CompanyData>, index: FuzzyIndex, p: SearchParams, k: nat)
    requires IndexOver(index, cs) && k <= |Strategies|
    ensures AnswerBounds(CascadeFrom(cs, index, p, k), cs, BestMatchOf(index, p))
    decreases |Strategies| - k
  {
    if k == |Strategies| {
      BestMatchShape(cs, index, p);
    } else {
      var r := RunStrategy(Strategies[k], cs, index, p);
      if Accepted(r) {
        StrategyResultBounds(Strategies[k], cs, index, p);
      } else {
        CascadeFromBounds(cs, index, p, k + 1);
      }
    }
  }

  /** Every match the search returns is a catalog record with a score in
      [0.1, 1]; high confidence means a score of at least 0.8, medium one in
      [0.7, 0.9); a score below 0.7 or low confidence only comes from the
      fallback. */
  lemma SearchResultBounds(cs: seq<CompanyData>, index: FuzzyIndex, p: SearchParams)
    requires IndexOver(index, cs)
    ensures var r := SearchResult(cs, index, p);
            r.Some? ==> r.value.company in cs && 0.1 <= r.value.matchScore.score <= 1.0 &&
                        (r.value.matchScore.confidence == High ==> r.value.matchScore.score >= 0.8) &&
                        (r.value.matchScore.confidence == Medium ==> 0.7 <= r.value.matchScore.score < 0.9) &&
                        (r.value.matchScore.score < 0.7 || r.value.matchScore.confidence == Low ==>
                           r == BestMatchOf(index, p))
  {
    CascadeFromBounds(cs, index, p, 0);
  }

  // ---------------------------------------------------------------------
  // The steps of the strategies that build their result imperatively

  /** `determineMatchedFields`: pushes each agreeing field in turn. */
  method DetermineMatchedFields(p: SearchParams, c: CompanyData) returns (matched: seq<MatchedField>)
    ensures matched == MatchedFields(p, c)
  {
    matched := [];
    if Truthy(p.website) && c.domain != "" {
      if NormalizeDomain(p.website.value) == NormalizeDomain(c.domain) {
        matched := matched + [Domain];
      }
    }
    ghost var d := if DomainAgrees(p, c) then [Domain] else [];
    assert matched == d;
    if Truthy(p.phone) && c.phoneNumbers.Some? {
      if HasPhone(c, NormalizePhone(p.phone.value)) {
        matched := matched + [Phone];
      }
    }
    ghost var ph := if PhoneAgrees(p, c) then [Phone] else [];
    assert matched == d + ph;
    if Truthy(p.facebook) && c.socialMediaLinks.Some? && Truthy(c.socialMediaLinks.value.facebook) {
      if NormalizeFacebookUrl(p.facebook.value) == NormalizeFacebookUrl(c.socialMediaLinks.value.facebook.value) {
        matched := matched + [Facebook];
      }
    }
    ghost var f := if FacebookAgrees(p, c) then [Facebook] else [];
    assert matched == d + ph + f;
    if Truthy(p.name) {
      var names := CompanyNames(c);
      if AnySimilar(p.name.value, names) {
        matched := matched + [Name];
      }
    }
  }

  /** The capped ratio of the accumulated score and weight sum. */
  lemma CapRatio(s: real, w: real, score: real, weightSum: real)
    requires w >= 0.0 && score == 1.0 - s + w && weightSum == 1.0 + w
    ensures (if score / weightSum < 1.0 then score / weightSum else 1.0) == CombinedScore(s, w)
  {
    CombinedScoreIs(s, w);
  }

  /** `calculateCombinedScore`: adds each agreeing field's weight to both
    the score and the weight sum, then divides, capped at 1. */
  method CalculateCombinedScore(p: SearchParams, c: CompanyData, fuseScore: real) returns (r: real)
    ensures r == CombinedScore(fuseScore, WeightOf(MatchedFields(p, c)))
  {
    var score := 1.0 - fuseScore;
    var weightSum := 1.0;
    if Truthy(p.website) && c.domain != "" {
      if NormalizeDomain(p.website.value) == NormalizeDomain(c.domain) {
        score := score + 0.3;
        weightSum := weightSum + 0.3;
      }
    }
    ghost var d := if DomainAgrees(p, c) then 0.3 else 0.0;
    assert score == 1.0 - fuseScore + d && weightSum == 1.0 + d;
    if Truthy(p.phone) && c.phoneNumbers.Some? {
      if HasPhone(c, NormalizePhone(p.phone.value)) {
        score := score + 0.25;
        weightSum := weightSum + 0.25;
      }
    }
    ghost var ph := if PhoneAgrees(p, c) then 0.25 else 0.0;
    assert score == 1.0 - fuseScore + d + ph && weightSum == 1.0 + d + ph;
    if Truthy(p.facebook) && c.socialMediaLinks.Some? && Truthy(c.socialMediaLinks.value.facebook) {
      if NormalizeFacebookUrl(p.facebook.value) == NormalizeFacebookUrl(c.socialMediaLinks.value.facebook.value) {
        score := score + 0.2;
        weightSum := weightSum + 0.2;
      }
    }
    ghost var f := if FacebookAgrees(p, c) then 0.2 else 0.0;
    assert score == 1.0 - fuseScore + d + ph + f && weightSum == 1.0 + d + ph + f;
    BonusIsWeightOfMatchedFields(p, c);
    ghost var w := WeightOf(MatchedFields(p, c));
    assert d + ph + f == w;
    assert score == 1.0 - fuseScore + w && weightSum == 1.0 + w;
    CapRatio(fuseScore, w, score, weightSum);
    var ratio := score / weightSum;
    r := if ratio < 1.0 then ratio else 1.0;
  }

  /** `combinedMatch` */
  method CombinedMatch(index: FuzzyIndex, p: SearchParams) returns (r: Option<CompanyMatch>)
    ensures r == CombinedMatchOf(index, p)
  {
    var q := CombinedQuery(p);
    if q == "" {
      return None;
    }
    var hits := index(q);
    if |hits| == 0 {
      return None;
    }
    var c := hits[0].item;
    var matched := DetermineMatchedFields(p, c);
    var score := CalculateCombinedScore(p, c, hits[0].score);
    BonusIsWeightOfMatchedFields(p, c);
    r := Some(CompanyMatch(c, MatchScore(score, matched, Tier(score))));
  }

  /** `getBestMatch` */
  method GetBestMatch(index: FuzzyIndex, p: SearchParams) returns (r: Option<CompanyMatch>)
    ensures r == BestMatchOf(index, p)
  {
    var q := FallbackQuery(p);
    if q == "" {
      assert BestMatchOf(index, p) == None;
      return None;
    }
    var hits := index(q);
    if |hits| == 0 {
      assert BestMatchOf(index, p) == None;
      return None;
    }
    assert BestMatchOf(index, p) == Some(FallbackMatch(p, hits[0]));
    var c := hits[0].item;
    var matched := DetermineMatchedFields(p, c);
    var score := Max(0.1, 1.0 - hits[0].score);
    assert matched == MatchedFields(p, c);
    assert FallbackMatch(p, hits[0]) == CompanyMatch(c, MatchScore(score, matched, Low));
    r := Some(CompanyMatch(c, MatchScore(score, matched, Low)));
  }

  // ---------------------------------------------------------------------
  // The service

  /** `SearchService`: the catalog it indexes and the index, absent until
      `initializeIndex` runs. The library constructor that builds the index is
      a parameter of the service. */
  class SearchService {
    var companies: seq<CompanyData>
    var fuseInstance: Option<FuzzyIndex>
    const buildIndex: seq<CompanyData> -> FuzzyIndex

    ghost predicate Valid()
      reads this
    {
      BuildsRankedIndex(buildIndex) &&
      (fuseInstance.Some? ==> IndexOver(fuseInstance.value, companies))
    }

    constructor(build: seq<CompanyData> -> FuzzyIndex)
      requires BuildsRankedIndex(build)
      ensures Valid()
      ensures companies == [] && fuseInstance == None && buildIndex == build
    {
      companies := [];
      fuseInstance := None;
      buildIndex := build;
    }

    /** `initializeIndex`: replaces the catalog and rebuilds the index over it. */
    method InitializeIndex(cs: seq<CompanyData>)
      requires Valid()
      modifies this
      ensures Valid()
      ensures companies == cs && fuseInstance == Some(buildIndex(cs))
    {
      companies := cs;
      fuseInstance := Some(buildIndex(cs));
    }

    /** `getIndexStats` */
    method GetIndexStats() returns (totalCompanies: nat, indexed: bool)
      ensures totalCompanies == |companies|
      ensures indexed <==> fuseInstance.Some?
    {
      totalCompanies := |companies|;
      indexed := fuseInstance.Some?;
    }

    /** `searchCompany`: fails without an index; otherwise tries the
      strategies in order, returning the first result that scores at least
      0.7, and falls back to the best fuzzy hit. */
    method SearchCompany(p: SearchParams) returns (r: Result<Option<CompanyMatch>, ServiceError>)
      ensures fuseInstance.None? ==> r == Failure(SearchIndexNotInitialized)
      ensures fuseInstance.Some? ==> r == Success(SearchResult(companies, fuseInstance.value, p))
    {
      if fuseInstance.None? {
        return Failure(SearchIndexNotInitialized);
      }
      var index := fuseInstance.value;
      var k := 0;
      while k < |Strategies|
        invariant 0 <= k <= |Strategies|
        invariant CascadeFrom(companies, index, p, k) == SearchResult(companies, index, p)
        decreases |Strategies| - k
      {
        var result: Option<CompanyMatch>;
        if Strategies[k] == Combined {
          result := CombinedMatch(index, p);
        } else {
          result := RunStrategy(Strategies[k], companies, index, p);
        }
        if result.Some? && result.value.matchScore.score >= 0.7 {
          return Success(result);
        }
        k := k + 1;
      }
      var best := GetBestMatch(index, p);
      return Success(best);
    }
  }
}
