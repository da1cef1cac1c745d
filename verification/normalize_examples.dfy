/** Worked examples of the normalisers on concrete strings. */
module NormalizeExamples {
  import opened Strings
  import opened Normalize

  /** A full URL loses its scheme, `www.` and trailing slash: whatever the
      host and path, `<scheme>www.<core>/` normalises to `<core>` in lower case. */
  lemma FullUrlNormalisation(scheme: string, core: string)
    requires scheme == "http://" || scheme == "https://"
    ensures NormalizeDomain(scheme + ("www." + (core + "/"))) == ToLower(core)
  {
    NormalizeDomainOfParts(scheme + ("www." + (core + "/")), scheme, "www.", core, "/");
  }

  /** The scheme is stripped once only: normalising `http://http://a.com`
      gives `http://a.com`, which a second pass turns into `a.com`. */
  lemma NormalizeDoubleScheme()
    ensures NormalizeDomain("http://http://a.com") == "http://a.com"
  {
    var s := "http://http://a.com";
    assert s[..7] == "http://";
    assert StripScheme(s) == "http://a.com";
    assert "http://a.com"[..4][0] == 'h';
    assert StripWww("http://a.com") == "http://a.com";
    assert "http://a.com"[11..][0] == 'm';
    assert StripTrailingSlash("http://a.com") == "http://a.com";
    LowerFixed("http://a.com");
  }

  lemma NormalizeSchemeOnly()
    ensures NormalizeDomain("http://a.com") == "a.com"
  {
    var s := "http://a.com";
    assert s[..7] == "http://";
    assert StripScheme(s) == "a.com";
    assert "a.com"[..4][0] == 'a';
    assert StripWww("a.com") == "a.com";
    assert "a.com"[4..][0] == 'm';
    assert StripTrailingSlash("a.com") == "a.com";
    LowerFixed("a.com");
  }

  /** A string starting with neither `h` nor `w` has neither a lower-case
      scheme nor `www.` to strip. */
  lemma PlainStartKept(s: string)
    requires s != [] && s[0] != 'h' && s[0] != 'w'
    ensures StripScheme(s) == s && StripWww(s) == s
  {
    assert !StartsWith(s, "http://") by {
      if |s| >= 7 { assert s[..7][0] == s[0]; }
    }
    assert !StartsWith(s, "https://") by {
      if |s| >= 8 { assert s[..8][0] == s[0]; }
    }
    assert !StartsWith(s, "www.") by {
      if |s| >= 4 { assert s[..4][0] == s[0]; }
    }
  }

  lemma UpperSchemeLower()
    ensures ToLower("HTTP://") == "http://"
  {
  }

  /** The scheme pattern is case-sensitive and lower-casing comes last, so an
      upper-case scheme survives, in lower case. */
  lemma NormalizeUpperScheme(core: string)
    requires core != [] && core[|core| - 1] != '/'
    ensures NormalizeDomain("HTTP://" + core) == "http://" + ToLower(core)
  {
    var s := "HTTP://" + core;
    PlainStartKept(s);
    assert !EndsWith(s, "/") by {
      assert s[|s| - 1..][0] == core[|core| - 1];
    }
    ToLowerAppend("HTTP://", core);
    UpperSchemeLower();
  }

  /** One leading `1` is stripped per pass, so a second pass can strip another. */
  lemma PhoneNormalisationNotIdempotent()
    ensures NormalizePhone("11") == "1"
    ensures NormalizePhone("1") == ""
  {
    DigitsOfDigits("11");
    DigitsOfDigits("1");
  }

  lemma {:induction false} DigitsOfDigitRuns(sep: string, x: string, y: string)
    requires forall i :: 0 <= i < |sep| ==> !IsDigit(sep[i])
    requires forall i :: 0 <= i < |x| ==> IsDigit(x[i])
    ensures DigitsOf(x + sep + y) == x + DigitsOf(y)
  {
    DigitsOfAppend(x + sep, y);
    DigitsOfAppend(x, sep);
    DigitsOfDigits(x);
    DigitsOfNonDigits(sep);
  }

  /** The bracketed and the dashed spelling of a number normalise alike. */
  lemma {:induction false} PhoneSpellingsAgree(area: string, exchange: string, line: string)
    requires forall i :: 0 <= i < |area| ==> IsDigit(area[i])
    requires forall i :: 0 <= i < |exchange| ==> IsDigit(exchange[i])
    requires forall i :: 0 <= i < |line| ==> IsDigit(line[i])
    ensures NormalizePhone("(" + area + ") " + exchange + "-" + line) ==
            NormalizePhone(area + "-" + exchange + "-" + line)
  {
    var tail := exchange + "-" + line;
    var bracketed := "(" + area + ") " + exchange + "-" + line;
    var dashed := area + "-" + exchange + "-" + line;
    assert DigitsOf(tail) == exchange + line by {
      DigitsOfDigits(line);
      DigitsOfDigitRuns("-", exchange, line);
    }
    assert DigitsOf(bracketed) == area + DigitsOf(tail) by {
      assert bracketed == "" + "(" + (area + ") " + tail);
      DigitsOfDigitRuns("(", "", area + ") " + tail);
      DigitsOfDigitRuns(") ", area, tail);
    }
    assert DigitsOf(dashed) == area + DigitsOf(tail) by {
      assert dashed == area + "-" + tail;
      DigitsOfDigitRuns("-", area, tail);
    }
  }

  lemma FacebookPrefixLower()
    ensures ToLower("facebook.com/") == "facebook.com/"
  {
    LowerFixed("facebook.com/");
  }

  lemma ShortPrefixLower()
    ensures ToLower("fb.com/") == "fb.com/"
  {
    LowerFixed("fb.com/");
  }

  /** Removing a pattern from a string that starts with it removes that prefix. */
  lemma RemovePrefix(d: string, rest: string)
    ensures RemoveFirst(d + rest, d) == rest
  {
    var s := d + rest;
    assert Occurs(s, d, 0) by { assert s[..|d|] == d; }
    RemoveFirstLeftmost(s, d, 0);
    assert s[|d|..] == rest;
  }

  /** A Facebook page URL normalises to the page name in lower case, as long
      as the name does not itself contain `fb.com/`. */
  lemma FacebookPageNormalisation(page: string)
    requires forall j :: !Occurs(ToLower(page), "fb.com/", j)
    ensures NormalizeFacebookUrl("https://" + ("www." + (("facebook.com/" + page) + "/"))) == ToLower(page)
  {
    var d := "facebook.com/";
    FullUrlNormalisation("https://", d + page);
    FacebookPrefixLower();
    ToLowerAppend(d, page);
    RemovePrefix(d, ToLower(page));
    RemoveFirstLeftmost(ToLower(page), "fb.com/", 0);
  }

  /** `fb.com/` followed by a page name holds no `facebook.com/` unless the
      page name does. */
  lemma NoLongFormInShort(lp: string)
    requires forall j :: !Occurs(lp, "facebook.com/", j)
    ensures forall j :: !Occurs("fb.com/" + lp, "facebook.com/", j)
  {
    var d, t := "fb.com/" + lp, "facebook.com/";
    forall j ensures !Occurs(d, t, j) {
      if 0 <= j && j + |t| <= |d| {
        if j < 7 {
          assert d[j..j + |t|][0] == d[j] && d[j..j + |t|][1] == d[j + 1];
          assert d[j] != 'f' || d[j + 1] != 'a';
        } else {
          assert d[j..j + |t|] == lp[j - 7..j - 7 + |t|];
          assert !Occurs(lp, t, j - 7);
        }
      }
    }
  }

  /** A host with nothing to strip normalises to itself in lower case. */
  lemma PlainNormalisation(s: string)
    requires s != [] && s[0] != 'h' && s[0] != 'w' && s[|s| - 1] != '/'
    ensures NormalizeDomain(s) == ToLower(s)
  {
    PlainStartKept(s);
    assert !EndsWith(s, "/") by { assert s[|s| - 1..][0] == s[|s| - 1]; }
  }

  lemma FacebookLongForm(page: string)
    requires page != [] && page[|page| - 1] != '/'
    requires forall j :: !Occurs(ToLower(page), "fb.com/", j)
    ensures NormalizeFacebookUrl("facebook.com/" + page) == ToLower(page)
  {
    var lp := ToLower(page);
    var d := "facebook.com/" + lp;
    assert NormalizeDomain("facebook.com/" + page) == d by {
      PlainNormalisation("facebook.com/" + page);
      ToLowerAppend("facebook.com/", page);
      FacebookPrefixLower();
    }
    assert RemoveFirst(d, "facebook.com/") == lp by {
      RemovePrefix("facebook.com/", lp);
    }
    assert RemoveFirst(lp, "fb.com/") == lp by {
      RemoveFirstLeftmost(lp, "fb.com/", 0);
    }
  }

  lemma FacebookShortForm(page: string)
    requires page != [] && page[|page| - 1] != '/'
    requires forall j :: !Occurs(ToLower(page), "facebook.com/", j)
    ensures NormalizeFacebookUrl("fb.com/" + page) == ToLower(page)
  {
    var lp := ToLower(page);
    var d := "fb.com/" + lp;
    assert NormalizeDomain("fb.com/" + page) == d by {
      PlainNormalisation("fb.com/" + page);
      ToLowerAppend("fb.com/", page);
      ShortPrefixLower();
    }
    assert RemoveFirst(d, "facebook.com/") == d by {
      NoLongFormInShort(lp);
      RemoveFirstLeftmost(d, "facebook.com/", 0);
    }
    assert RemoveFirst(d, "fb.com/") == lp by {
      RemovePrefix("fb.com/", lp);
    }
  }

  /** The long and the short Facebook address of a page normalise alike, to
      the page name in lower case, for every page name that holds neither
      pattern itself and does not end in `/`. */
  lemma FacebookShortAndLongAgree(page: string)
    requires page != [] && page[|page| - 1] != '/'
    requires forall j :: !Occurs(ToLower(page), "facebook.com/", j)
    requires forall j :: !Occurs(ToLower(page), "fb.com/", j)
    ensures NormalizeFacebookUrl("facebook.com/" + page) == NormalizeFacebookUrl("fb.com/" + page)
    ensures NormalizeFacebookUrl("fb.com/" + page) == ToLower(page)
  {
    FacebookLongForm(page);
    FacebookShortForm(page);
  }
}
