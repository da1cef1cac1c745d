/** The JavaScript string operations the services rely on, over `seq<char>`:
    `toLowerCase` (ASCII letters), `includes`, `replace` of a first
    occurrence, `trim`, `split(' ')`, `join(' ')` and the character classes
    `\d`, `\w` and `\s` of JavaScript regular expressions. */
module Strings {
  import opened Wrappers

  /** `\d` */
  predicate IsDigit(c: char) { '0' <= c <= '9' }

  predicate IsUpper(c: char) { 'A' <= c <= 'Z' }

  /** `\w` */
  predicate IsWordChar(c: char) { 'a' <= c <= 'z' || 'A' <= c <= 'Z' || IsDigit(c) || c == '_' }

  /** `\s`, and what `trim` removes: ECMAScript WhiteSpace and LineTerminator. */
  predicate IsSpace(c: char) {
    c == ' ' || c == '\t' || c == '\n' || c == '\r' || c == '\U{000B}' || c == '\U{000C}' ||
    c == '\U{00A0}' || c == '\U{1680}' || ('\U{2000}' <= c <= '\U{200A}') ||
    c == '\U{2028}' || c == '\U{2029}' || c == '\U{202F}' || c == '\U{205F}' ||
    c == '\U{3000}' || c == '\U{FEFF}'
  }

  predicate NoUpper(s: string) {
    forall i :: 0 <= i < |s| ==> !IsUpper(s[i])
  }

  function LowerChar(c: char): (r: char)
    ensures !IsUpper(r)
  {
    if IsUpper(c) then (c as int + 32) as char else c
  }

  /** `toLowerCase`, for the ASCII letters. */
  function ToLower(s: string): (r: string)
    ensures |r| == |s|
    ensures forall i :: 0 <= i < |r| ==> r[i] == LowerChar(s[i])
  {
    seq(|s|, i requires 0 <= i < |s| => LowerChar(s[i]))
  }

  lemma LowerFixed(s: string)
    requires NoUpper(s)
    ensures ToLower(s) == s
  {
  }

  lemma ToLowerIdempotent(s: string)
    ensures ToLower(ToLower(s)) == ToLower(s)
  {
  }

  /** Lower-casing works character by character. */
  lemma ToLowerAppend(a: string, b: string)
    ensures ToLower(a + b) == ToLower(a) + ToLower(b)
  {
  }

  predicate StartsWith(s: string, prefix: string) {
    |prefix| <= |s| && s[..|prefix|] == prefix
  }

  predicate EndsWith(s: string, suffix: string) {
    |suffix| <= |s| && s[|s| - |suffix|..] == suffix
  }

  /** `t` occurs in `s` at position `j`. */
  predicate Occurs(s: string, t: string, j: int) {
    0 <= j && j + |t| <= |s| && s[j..j + |t|] == t
  }

  function IndexOfFrom(s: string, t: string, k: nat): (r: Option<nat>)
    requires k <= |s|
    ensures r.Some? ==> k <= r.value && Occurs(s, t, r.value)
    ensures r.Some? ==> forall j :: k <= j < r.value ==> !Occurs(s, t, j)
    ensures r.None? ==> forall j :: k <= j ==> !Occurs(s, t, j)
    decreases |s| - k
  {
    if k + |t| > |s| then None
    else if s[k..k + |t|] == t then Some(k)
    else IndexOfFrom(s, t, k + 1)
  }

  /** `s.indexOf(t)`, with `None` for -1: the first occurrence. */
  function IndexOf(s: string, t: string): (r: Option<nat>)
    ensures r.Some? ==> Occurs(s, t, r.value) && forall j :: 0 <= j < r.value ==> !Occurs(s, t, j)
    ensures r.None? ==> forall j :: !Occurs(s, t, j)
  {
    IndexOfFrom(s, t, 0)
  }

  /** `s.includes(t)` */
  predicate Contains(s: string, t: string) {
    IndexOf(s, t).Some?
  }

  lemma ContainsIff(s: string, t: string)
    ensures Contains(s, t) <==> exists j :: Occurs(s, t, j)
  {
  }

  lemma ContainsEmpty(s: string)
    ensures Contains(s, "")
  {
    assert Occurs(s, "", 0);
  }

  lemma NoUpperCut(s: string, i: nat, j: nat)
    requires i <= j <= |s|
    ensures NoUpper(s) ==> NoUpper(s[..i] + s[j..])
  {
    var r := s[..i] + s[j..];
    forall m | 0 <= m < |r| && NoUpper(s) ensures !IsUpper(r[m]) {
      if m < i { assert r[m] == s[m]; } else { assert r[m] == s[m - i + j]; }
    }
  }

  /** `s.replace(t, '')` with a string pattern: removes the first occurrence only. */
  function RemoveFirst(s: string, t: string): (r: string)
    ensures |r| <= |s|
    ensures NoUpper(s) ==> NoUpper(r)
  {
    match IndexOf(s, t)
    case None => s
    case Some(i) =>
      NoUpperCut(s, i, i + |t|);
      s[..i] + s[i + |t|..]
  }

  /** Removing a pattern changes nothing when it does not occur, and cuts out
      exactly its leftmost occurrence when it does. */
  lemma RemoveFirstLeftmost(s: string, t: string, i: int)
    ensures (forall j :: !Occurs(s, t, j)) ==> RemoveFirst(s, t) == s
    ensures Occurs(s, t, i) && (forall j :: 0 <= j < i ==> !Occurs(s, t, j)) ==>
              RemoveFirst(s, t) == s[..i] + s[i + |t|..]
  {
  }

  /** `r` is `s` with the leftmost occurrence of `t` cut out, or `s` itself
      when `t` does not occur in `s`. */
  ghost predicate CutLeftmost(s: string, t: string, r: string) {
    if exists i :: Occurs(s, t, i) then
      exists i :: Occurs(s, t, i) && (forall j :: 0 <= j < i ==> !Occurs(s, t, j)) &&
                  r == s[..i] + s[i + |t|..]
    else r == s
  }

  /** At most one string is `s` with its leftmost `t` cut out. */
  lemma CutLeftmostUnique(s: string, t: string, r: string, r': string)
    requires CutLeftmost(s, t, r) && CutLeftmost(s, t, r')
    ensures r == r'
  {
    if exists i :: Occurs(s, t, i) {
      var i :| Occurs(s, t, i) && (forall j :: 0 <= j < i ==> !Occurs(s, t, j)) && r == s[..i] + s[i + |t|..];
      var i' :| Occurs(s, t, i') && (forall j :: 0 <= j < i' ==> !Occurs(s, t, j)) && r' == s[..i'] + s[i' + |t|..];
      LeftmostUnique(s, t, i, i');
    }
  }

  lemma LeftmostUnique(s: string, t: string, i: int, i': int)
    requires Occurs(s, t, i) && forall j :: 0 <= j < i ==> !Occurs(s, t, j)
    requires Occurs(s, t, i') && forall j :: 0 <= j < i' ==> !Occurs(s, t, j)
    ensures i == i'
  {
  }

  /** `replace` with a string pattern cuts out the leftmost occurrence. */
  lemma RemoveFirstCutsLeftmost(s: string, t: string)
    ensures CutLeftmost(s, t, RemoveFirst(s, t))
  {
    match IndexOf(s, t)
    case None =>
    case Some(i) =>
      assert Occurs(s, t, i);
  }

  /** `s.replace(/[^\d]/g, '')` */
  function DigitsOf(s: string): (r: string)
    ensures |r| <= |s|
    ensures forall i :: 0 <= i < |r| ==> IsDigit(r[i])
  {
    if s == [] then [] else (if IsDigit(s[0]) then [s[0]] else []) + DigitsOf(s[1..])
  }

  lemma {:induction false} DigitsOfAppend(a: string, b: string)
    ensures DigitsOf(a + b) == DigitsOf(a) + DigitsOf(b)
  {
    if a == [] {
      assert a + b == b;
    } else {
      assert (a + b)[0] == a[0];
      assert (a + b)[1..] == a[1..] + b;
      DigitsOfAppend(a[1..], b);
    }
  }

  lemma {:induction false} DigitsOfDigits(s: string)
    requires forall i :: 0 <= i < |s| ==> IsDigit(s[i])
    ensures DigitsOf(s) == s
  {
    if s != [] {
      DigitsOfDigits(s[1..]);
    }
  }

  lemma {:induction false} DigitsOfNonDigits(s: string)
    requires forall i :: 0 <= i < |s| ==> !IsDigit(s[i])
    ensures DigitsOf(s) == ""
  {
    if s != [] {
      DigitsOfNonDigits(s[1..]);
    }
  }

  /** `s.replace(/[^\d+]/g, '')` */
  function DigitsAndPlusOf(s: string): (r: string)
    ensures |r| <= |s|
    ensures forall i :: 0 <= i < |r| ==> IsDigit(r[i]) || r[i] == '+'
  {
    if s == [] then []
    else (if IsDigit(s[0]) || s[0] == '+' then [s[0]] else []) + DigitsAndPlusOf(s[1..])
  }

  /** `s.replace(/[^\w\s]/g, '')` */
  function WordAndSpaceOf(s: string): (r: string)
    ensures |r| <= |s|
    ensures forall i :: 0 <= i < |r| ==> (IsWordChar(r[i]) || IsSpace(r[i])) && r[i] in s
  {
    if s == [] then []
    else (if IsWordChar(s[0]) || IsSpace(s[0]) then [s[0]] else []) + WordAndSpaceOf(s[1..])
  }

  function TrimStart(s: string): (r: string)
    ensures |r| <= |s| && r == s[|s| - |r|..]
    ensures r != [] ==> !IsSpace(r[0])
  {
    if s != [] && IsSpace(s[0]) then TrimStart(s[1..]) else s
  }

  function TrimEnd(s: string): (r: string)
    ensures |r| <= |s| && r == s[..|r|]
    ensures r != [] ==> !IsSpace(r[|r| - 1])
  {
    if s != [] && IsSpace(s[|s| - 1]) then TrimEnd(s[..|s| - 1]) else s
  }

  /** `s.trim()`: a contiguous slice of `s` without white space at either end. */
  function Trim(s: string): (r: string)
    ensures |r| <= |s|
    ensures exists i :: Occurs(s, r, i)
    ensures r != [] ==> !IsSpace(r[0]) && !IsSpace(r[|r| - 1])
  {
    var t := TrimStart(s);
    var r := TrimEnd(t);
    assert Occurs(s, r, |s| - |t|);
    r
  }

  lemma {:induction false} DigitsAndPlusOfAppend(a: string, b: string)
    ensures DigitsAndPlusOf(a + b) == DigitsAndPlusOf(a) + DigitsAndPlusOf(b)
  {
    if a == [] {
      assert a + b == b;
    } else {
      assert (a + b)[0] == a[0];
      assert (a + b)[1..] == a[1..] + b;
      DigitsAndPlusOfAppend(a[1..], b);
    }
  }

  predicate AllSpace(s: string) {
    forall i :: 0 <= i < |s| ==> IsSpace(s[i])
  }

  lemma {:induction false} DigitsAndPlusOfSpaces(s: string)
    requires AllSpace(s)
    ensures DigitsAndPlusOf(s) == ""
  {
    if s != [] {
      assert AllSpace(s[1..]) by {
        forall i | 0 <= i < |s| - 1 ensures IsSpace(s[1..][i]) {
          assert s[1..][i] == s[i + 1];
        }
      }
      DigitsAndPlusOfSpaces(s[1..]);
    }
  }

  /** Every character `trimStart` drops is white space. */
  lemma {:induction false} TrimStartDropsSpaces(s: string)
    ensures forall i :: 0 <= i < |s| - |TrimStart(s)| ==> IsSpace(s[i])
  {
    if s != [] && IsSpace(s[0]) {
      var rest := s[1..];
      TrimStartDropsSpaces(rest);
      forall i | 1 <= i < |s| - |TrimStart(s)| ensures IsSpace(s[i]) {
        assert s[i] == rest[i - 1];
      }
    }
  }

  lemma TrimStartSplit(s: string)
    ensures s == s[..|s| - |TrimStart(s)|] + TrimStart(s)
    ensures AllSpace(s[..|s| - |TrimStart(s)|])
  {
    var n := |s| - |TrimStart(s)|;
    TrimStartDropsSpaces(s);
    forall i | 0 <= i < n ensures IsSpace(s[..n][i]) {
      assert s[..n][i] == s[i];
    }
    assert s == s[..n] + s[n..];
  }

  lemma {:induction false} TrimEndSplit(s: string)
    ensures s == TrimEnd(s) + s[|TrimEnd(s)|..]
    ensures AllSpace(s[|TrimEnd(s)|..])
  {
    var t := TrimEnd(s);
    if s != [] && IsSpace(s[|s| - 1]) {
      var init := s[..|s| - 1];
      TrimEndSplit(init);
      assert t == TrimEnd(init);
      assert s[|t|..] == init[|t|..] + [s[|s| - 1]];
    }
    assert s == s[..|t|] + s[|t|..];
  }

  /** Trimming removes white space only, so it keeps every digit and `+`. */
  lemma TrimKeepsDigitsAndPlus(s: string)
    ensures DigitsAndPlusOf(Trim(s)) == DigitsAndPlusOf(s)
  {
    var t := TrimStart(s);
    var r := TrimEnd(t);
    assert Trim(s) == r;
    assert DigitsAndPlusOf(t) == DigitsAndPlusOf(s) by {
      TrimStartSplit(s);
      var pre := s[..|s| - |t|];
      DigitsAndPlusOfSpaces(pre);
      DigitsAndPlusOfAppend(pre, t);
    }
    assert DigitsAndPlusOf(r) == DigitsAndPlusOf(t) by {
      TrimEndSplit(t);
      var post := t[|r|..];
      DigitsAndPlusOfSpaces(post);
      DigitsAndPlusOfAppend(r, post);
    }
  }

  /** `s.split(sep)` for a one-character separator; `"".split(' ')` is `[""]`. */
  function Split(s: string, sep: char): (r: seq<string>)
    ensures |r| >= 1
    ensures forall i :: 0 <= i < |r| ==> sep !in r[i]
  {
    if sep !in s then [s]
    else
      var k := FirstIndexOfChar(s, sep);
      [s[..k]] + Split(s[k + 1..], sep)
  }

  function FirstIndexOfChar(s: string, c: char): (k: nat)
    requires c in s
    ensures k < |s| && s[k] == c && c !in s[..k]
  {
    if s[0] == c then 0 else 1 + FirstIndexOfChar(s[1..], c)
  }

  /** `parts.join(sep)` */
  function Join(parts: seq<string>, sep: string): string {
    if parts == [] then ""
    else if |parts| == 1 then parts[0]
    else parts[0] + sep + Join(parts[1..], sep)
  }

  lemma JoinEmpty(parts: seq<string>, sep: string)
    requires sep != ""
    ensures Join(parts, sep) == "" <==> parts == [] || (|parts| == 1 && parts[0] == "")
  {
  }
}
