/** The normalisers of the search service: single-pass rewrites of domains,
    phone numbers and Facebook URLs, and the name comparison behind the
    `name` entry of `matched_fields`. Each regular expression of the source
    is anchored and applied once, so none of these is idempotent in general. */
module Normalize {
  import opened Strings
  import opened Seqs

  /** `.replace(/^https?:\/\//, '')`: the scheme is matched case-sensitively. */
  function StripScheme(s: string): string {
    if StartsWith(s, "http://") then s[7..]
    else if StartsWith(s, "https://") then s[8..]
    else s
  }

  /** `.replace(/^www\./, '')` */
  function StripWww(s: string): string {
    if StartsWith(s, "www.") then s[4..] else s
  }

  /** `.replace(/\/$/, '')` */
  function StripTrailingSlash(s: string): string {
    if EndsWith(s, "/") then s[..|s| - 1] else s
  }

  /** `s` is `scheme + www + core + slash`, each of the three stripped parts
      being absent or a single occurrence of what the source strips. */
  predicate StrippedOnce(s: string, scheme: string, www: string, core: string, slash: string) {
    (scheme == "" || scheme == "http://" || scheme == "https://") &&
    (www == "" || www == "www.") &&
    (slash == "" || slash == "/") &&
    s == scheme + (www + (core + slash))
  }

  function NormalizeDomain(domain: string): (r: string)
    ensures |r| <= |domain|
    ensures NoUpper(r)
  {
    ToLower(StripTrailingSlash(StripWww(StripScheme(domain))))
  }

  /** `StripScheme` cuts off nothing, `http://` or `https://`. */
  lemma StripSchemeSplit(s: string) returns (scheme: string)
    ensures scheme == "" || scheme == "http://" || scheme == "https://"
    ensures s == scheme + StripScheme(s)
  {
    if StartsWith(s, "http://") {
      scheme := s[..7];
      assert s == scheme + s[7..];
    } else if StartsWith(s, "https://") {
      scheme := s[..8];
      assert s == scheme + s[8..];
    } else {
      scheme := "";
      assert s == scheme + s;
    }
  }

  /** `StripWww` cuts off nothing or `www.`. */
  lemma StripWwwSplit(s: string) returns (www: string)
    ensures www == "" || www == "www."
    ensures s == www + StripWww(s)
  {
    if StartsWith(s, "www.") {
      www := s[..4];
      assert s == www + s[4..];
    } else {
      www := "";
      assert s == www + s;
    }
  }

  /** `StripTrailingSlash` cuts off nothing or one `/`. */
  lemma StripSlashSplit(s: string) returns (slash: string)
    ensures slash == "" || slash == "/"
    ensures s == StripTrailingSlash(s) + slash
  {
    if EndsWith(s, "/") {
      slash := s[|s| - 1..];
      assert s == s[..|s| - 1] + slash;
    } else {
      slash := "";
      assert s == s + slash;
    }
  }

  /** The parts one pass of `NormalizeDomain` strips, and the core it keeps. */
  lemma DomainParts(domain: string) returns (scheme: string, www: string, core: string, slash: string)
    ensures StrippedOnce(domain, scheme, www, core, slash)
    ensures NormalizeDomain(domain) == ToLower(core)
  {
    var a := StripScheme(domain);
    var b := StripWww(a);
    core := StripTrailingSlash(b);
    scheme := StripSchemeSplit(domain);
    www := StripWwwSplit(a);
    slash := StripSlashSplit(b);
  }

  /** The result is the lower-cased remainder once at most one scheme, one
      `www.` and one trailing slash are stripped. */
  lemma NormalizeDomainStripsOnce(domain: string)
    ensures exists scheme, www, core, slash ::
              StrippedOnce(domain, scheme, www, core, slash) && NormalizeDomain(domain) == ToLower(core)
  {
    var scheme, www, core, slash := DomainParts(domain);
  }

  /** Strips one leading `1` (a North-American country code). */
  function StripLeadingOne(s: string): string {
    if StartsWith(s, "1") then s[1..] else s
  }

  /** `phone.replace(/[^\d]/g, '').replace(/^1/, '')` */
  function NormalizePhone(phone: string): (r: string)
    ensures |r| <= |phone|
    ensures forall i :: 0 <= i < |r| ==> IsDigit(r[i])
    ensures StartsWith(DigitsOf(phone), "1") ==> DigitsOf(phone) == "1" + r
    ensures !StartsWith(DigitsOf(phone), "1") ==> r == DigitsOf(phone)
  {
    var digits := DigitsOf(phone);
    var r := StripLeadingOne(digits);
    assert StartsWith(digits, "1") ==> digits == "1" + r;
    r
  }

  /** The domain normalisation followed by `.replace('facebook.com/', '')`
      and `.replace('fb.com/', '')`, each removing a first occurrence only. */
  function NormalizeFacebookUrl(url: string): (r: string)
    ensures |r| <= |url|
    ensures NoUpper(r)
  {
    RemoveFirst(RemoveFirst(NormalizeDomain(url), "facebook.com/"), "fb.com/")
  }

  /** For every URL, the leftmost `facebook.com/` is cut out of the normalised
      domain, then the leftmost `fb.com/` out of what remains. */
  lemma NormalizeFacebookUrlCuts(url: string)
    ensures exists rest :: CutLeftmost(NormalizeDomain(url), "facebook.com/", rest) &&
                           CutLeftmost(rest, "fb.com/", NormalizeFacebookUrl(url))
  {
    var rest := RemoveFirst(NormalizeDomain(url), "facebook.com/");
    RemoveFirstCutsLeftmost(NormalizeDomain(url), "facebook.com/");
    RemoveFirstCutsLeftmost(rest, "fb.com/");
  }

  /** Every character of `r` is a space or a character of `s` that is not
      white space. */
  ghost predicate SpacesOrFrom(r: string, s: string) {
    forall i :: 0 <= i < |r| ==> r[i] == ' ' || (!IsSpace(r[i]) && r[i] in s)
  }

  /** No two white-space characters are adjacent in `r`. */
  ghost predicate NoDoubleSpace(r: string) {
    forall i :: 0 <= i < |r| - 1 ==> !IsSpace(r[i]) || !IsSpace(r[i + 1])
  }

  /** Replaces every run of white space by one space (`.replace(/\s+/g, ' ')`):
      what remains is a space or a character of `s` that is not white space,
      no two white-space characters are adjacent, and the first character is
      kept unless it is white space, which becomes a space. */
  function CollapseSpaces(s: string): (r: string)
    ensures |r| <= |s|
    ensures SpacesOrFrom(r, s) && NoDoubleSpace(r)
    ensures s != [] ==> r != [] && (IsSpace(s[0]) ==> r[0] == ' ') && (!IsSpace(s[0]) ==> r[0] == s[0])
    decreases |s|
  {
    if s == [] then []
    else if IsSpace(s[0]) then
      var t := TrimStart(s[1..]);
      var rest := CollapseSpaces(t);
      CollapseAfterSpace(s, t, rest);
      " " + rest
    else
      var rest := CollapseSpaces(s[1..]);
      CollapseAfterChar(s, rest);
      [s[0]] + rest
  }

  lemma CollapseAfterSpace(s: string, t: string, rest: string)
    requires s != [] && t == TrimStart(s[1..])
    requires SpacesOrFrom(rest, t) && NoDoubleSpace(rest)
    requires |rest| <= |t| && (t != [] ==> rest != [] && rest[0] == t[0])
    ensures SpacesOrFrom(" " + rest, s) && NoDoubleSpace(" " + rest)
  {
    SuffixIn(s[1..], t);
    SuffixIn(s, s[1..]);
    SpacesOrFromWeaken(rest, t, s);
    ConsSpacesOrFrom(' ', rest, s);
    ConsNoDoubleSpace(' ', rest);
    assert " " + rest == [' '] + rest;
  }

  lemma CollapseAfterChar(s: string, rest: string)
    requires s != [] && !IsSpace(s[0])
    requires SpacesOrFrom(rest, s[1..]) && NoDoubleSpace(rest)
    ensures SpacesOrFrom([s[0]] + rest, s) && NoDoubleSpace([s[0]] + rest)
  {
    SuffixIn(s, s[1..]);
    SpacesOrFromWeaken(rest, s[1..], s);
    ConsSpacesOrFrom(s[0], rest, s);
    ConsNoDoubleSpace(s[0], rest);
  }

  lemma SuffixIn(u: string, v: string)
    requires |v| <= |u| && v == u[|u| - |v|..]
    ensures forall c :: c in v ==> c in u
  {
    forall c | c in v ensures c in u {
      var j :| 0 <= j < |v| && v[j] == c;
      assert u[|u| - |v| + j] == c;
    }
  }

  lemma SpacesOrFromWeaken(r: string, t: string, s: string)
    requires SpacesOrFrom(r, t) && forall c :: c in t ==> c in s
    ensures SpacesOrFrom(r, s)
  {
  }

  lemma ConsSpacesOrFrom(c: char, rest: string, s: string)
    requires SpacesOrFrom(rest, s) && (c == ' ' || (!IsSpace(c) && c in s))
    ensures SpacesOrFrom([c] + rest, s)
  {
    var r := [c] + rest;
    forall i | 0 < i < |r| ensures r[i] == rest[i - 1] {
    }
  }

  lemma ConsNoDoubleSpace(c: char, rest: string)
    requires NoDoubleSpace(rest) && (IsSpace(c) ==> rest == [] || !IsSpace(rest[0]))
    ensures NoDoubleSpace([c] + rest)
  {
    var r := [c] + rest;
    forall i | 0 < i < |r| ensures r[i] == rest[i - 1] {
    }
  }

  /** `normalizeForComparison` inside `isNameSimilar`: lower-case, drop every
      character that is neither a word character nor white space, collapse
      white space, trim. */
  function NormalizeName(s: string): string {
    Trim(CollapseSpaces(WordAndSpaceOf(ToLower(s))))
  }

  /** The form names are compared in: lower-case word characters and single
      spaces, with no space at either end. */
  ghost predicate CanonicalName(s: string) {
    LowerWordsAndSpaces(s) && NoDoubleSpace(s) &&
    (s != [] ==> s[0] != ' ' && s[|s| - 1] != ' ')
  }

  /** Every character is a space or a lower-case word character. */
  ghost predicate LowerWordsAndSpaces(s: string) {
    forall i :: 0 <= i < |s| ==> s[i] == ' ' || (IsWordChar(s[i]) && !IsUpper(s[i]))
  }

  /** Every name normalises to lower-case words separated by single spaces. */
  lemma NormalizeNameForm(s: string)
    ensures CanonicalName(NormalizeName(s))
  {
    var b := WordAndSpaceOf(ToLower(s));
    var c := CollapseSpaces(b);
    LowerWordsOfLower(s);
    CollapsedLowerWords(b, c);
    TrimKeepsForm(c);
  }

  lemma LowerWordsOfLower(s: string)
    ensures var b := WordAndSpaceOf(ToLower(s));
            forall i :: 0 <= i < |b| ==> IsSpace(b[i]) || (IsWordChar(b[i]) && !IsUpper(b[i]))
  {
    var a := ToLower(s);
    var b := WordAndSpaceOf(a);
    forall i | 0 <= i < |b| ensures !IsUpper(b[i]) {
      var j :| 0 <= j < |a| && a[j] == b[i];
      assert a[j] == LowerChar(s[j]);
    }
  }

  lemma CollapsedLowerWords(b: string, c: string)
    requires forall i :: 0 <= i < |b| ==> IsSpace(b[i]) || (IsWordChar(b[i]) && !IsUpper(b[i]))
    requires c == CollapseSpaces(b)
    ensures LowerWordsAndSpaces(c) && NoDoubleSpace(c)
  {
    forall i | 0 <= i < |c| ensures c[i] == ' ' || (IsWordChar(c[i]) && !IsUpper(c[i])) {
      if c[i] != ' ' {
        var j :| 0 <= j < |b| && b[j] == c[i];
      }
    }
  }

  lemma TrimKeepsForm(c: string)
    requires LowerWordsAndSpaces(c) && NoDoubleSpace(c)
    ensures CanonicalName(Trim(c))
  {
    var r := Trim(c);
    var k :| Occurs(c, r, k);
    SliceKeepsForm(c, k, k + |r|);
  }

  lemma SliceKeepsForm(c: string, lo: int, hi: int)
    requires 0 <= lo <= hi <= |c| && LowerWordsAndSpaces(c) && NoDoubleSpace(c)
    ensures LowerWordsAndSpaces(c[lo..hi]) && NoDoubleSpace(c[lo..hi])
  {
    var r := c[lo..hi];
    forall i | 0 <= i < |r| ensures r[i] == c[lo + i] {
    }
  }

  function Min(a: int, b: int): int { if a <= b then a else b }

  /** How many words of `words` occur in `targets` (`filter(...).length`). */
  function Overlap(words: seq<string>, targets: seq<string>): (n: nat)
    ensures n <= |words|
  {
    Count(words, (w: string) => w in targets)
  }

  /** `isNameSimilar(input, target)` */
  predicate IsNameSimilar(input: string, target: string) {
    var a := NormalizeName(input);
    var b := NormalizeName(target);
    if a == b then true
    else if Contains(a, b) || Contains(b, a) then true
    else
      var aw := Split(a, ' ');
      var bw := Split(b, ' ');
      Overlap(aw, bw) as real >= Min(|aw|, |bw|) as real * 0.5
  }

  /** A name that normalises to nothing is similar to every name, and every
      name is similar to one that normalises to nothing. */
  lemma EmptyNameIsSimilarToAll(input: string, target: string)
    requires NormalizeName(input) == "" || NormalizeName(target) == ""
    ensures IsNameSimilar(input, target)
  {
    ContainsEmpty(NormalizeName(input));
    ContainsEmpty(NormalizeName(target));
  }

  /** Names are similar whenever one normalised name contains the other. */
  lemma ContainedNameIsSimilar(input: string, target: string, j: int)
    requires Occurs(NormalizeName(input), NormalizeName(target), j) ||
             Occurs(NormalizeName(target), NormalizeName(input), j)
    ensures IsNameSimilar(input, target)
  {
    ContainsIff(NormalizeName(input), NormalizeName(target));
    ContainsIff(NormalizeName(target), NormalizeName(input));
  }

  /** The comparison ignores letter case on either side. */
  lemma NameSimilarityIgnoresCase(input: string, target: string)
    ensures IsNameSimilar(ToLower(input), target) == IsNameSimilar(input, target)
    ensures IsNameSimilar(input, ToLower(target)) == IsNameSimilar(input, target)
  {
    ToLowerIdempotent(input);
    ToLowerIdempotent(target);
  }

  lemma StripSchemeOf(scheme: string, rest: string)
    requires scheme == "http://" || scheme == "https://"
    ensures StripScheme(scheme + rest) == rest
  {
    var s := scheme + rest;
    assert s[..|scheme|] == scheme;
    if scheme == "https://" {
      assert s[..7][4] == 's';
    }
  }

  lemma StripWwwOf(rest: string)
    ensures StripWww("www." + rest) == rest
  {
    assert ("www." + rest)[..4] == "www.";
  }

  lemma StripSlashOf(rest: string)
    ensures StripTrailingSlash(rest + "/") == rest
  {
    assert (rest + "/")[|rest|..] == "/";
  }

  /** Conversely, one pass strips exactly the parts that are there: when the
      scheme, `www.` or slash is absent, what follows it does not start (or
      end) with one either. */
  lemma NormalizeDomainOfParts(s: string, scheme: string, www: string, core: string, slash: string)
    requires StrippedOnce(s, scheme, www, core, slash)
    requires scheme == "" ==> !StartsWith(s, "http://") && !StartsWith(s, "https://")
    requires www == "" ==> !StartsWith(core + slash, "www.")
    requires slash == "" ==> !EndsWith(core, "/")
    ensures NormalizeDomain(s) == ToLower(core)
  {
    StripSchemePart(scheme, www + (core + slash));
    StripWwwPart(www, core + slash);
    StripSlashPart(core, slash);
  }

  lemma StripSchemePart(scheme: string, rest: string)
    requires scheme == "" || scheme == "http://" || scheme == "https://"
    requires scheme == "" ==> !StartsWith(rest, "http://") && !StartsWith(rest, "https://")
    ensures StripScheme(scheme + rest) == rest
  {
    if scheme != "" {
      StripSchemeOf(scheme, rest);
    } else {
      assert scheme + rest == rest;
    }
  }

  lemma StripWwwPart(www: string, rest: string)
    requires www == "" || www == "www."
    requires www == "" ==> !StartsWith(rest, "www.")
    ensures StripWww(www + rest) == rest
  {
    if www != "" {
      StripWwwOf(rest);
    } else {
      assert www + rest == rest;
    }
  }

  lemma StripSlashPart(core: string, slash: string)
    requires slash == "" || slash == "/"
    requires slash == "" ==> !EndsWith(core, "/")
    ensures StripTrailingSlash(core + slash) == core
  {
    if slash != "" {
      StripSlashOf(core);
    } else {
      assert core + slash == core;
    }
  }
}
