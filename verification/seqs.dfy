/** Generic facts about sequences: first-seen de-duplication (the order in
    which a JavaScript `Set` yields its elements), first-match search
    (`Array.prototype.find`) and counting (`filter(...).length`). */
module Seqs {
  import opened Wrappers

  ghost predicate NoDuplicates<T>(s: seq<T>) {
    forall i, j :: 0 <= i < j < |s| ==> s[i] != s[j]
  }

  /** Keeps the first occurrence of every element and drops the later ones. */
  function Dedup<T(==)>(s: seq<T>): (r: seq<T>)
    ensures NoDuplicates(r)
    ensures forall i :: 0 <= i < |r| ==> r[i] in s
    ensures forall i :: 0 <= i < |s| ==> s[i] in r
    ensures |r| <= |s|
  {
    if s == [] then []
    else
      var d := Dedup(s[..|s| - 1]);
      if s[|s| - 1] in d then d else d + [s[|s| - 1]]
  }

  /** One insertion into a `Set` read back in insertion order. */
  lemma DedupSnoc<T>(s: seq<T>, x: T)
    ensures Dedup(s + [x]) == if x in s then Dedup(s) else Dedup(s) + [x]
  {
    assert (s + [x])[..|s + [x]| - 1] == s;
  }

  /** `set.add(x)` on a set read back in insertion order. */
  lemma DedupAdd<T>(r: seq<T>, s: seq<T>, x: T)
    requires r == Dedup(s)
    ensures (if x in r then r else r + [x]) == Dedup(s + [x])
  {
    DedupSnoc(s, x);
    DedupMember(s, x);
  }

  /** Deduplication keeps exactly the elements of its input. */
  lemma DedupMember<T>(s: seq<T>, x: T)
    ensures x in Dedup(s) <==> x in s
  {
    if x in Dedup(s) {
      var i :| 0 <= i < |Dedup(s)| && Dedup(s)[i] == x;
    }
    if x in s {
      var i :| 0 <= i < |s| && s[i] == x;
    }
  }

  /** A duplicate-free sequence is left as it is. */
  lemma {:induction false} DedupOfDistinct<T>(s: seq<T>)
    requires NoDuplicates(s)
    ensures Dedup(s) == s
  {
    if s != [] {
      var init := s[..|s| - 1];
      DedupOfDistinct(init);
      assert s[|s| - 1] !in init;
      assert init + [s[|s| - 1]] == s;
    }
  }

  lemma DedupIdempotent<T>(s: seq<T>)
    ensures Dedup(Dedup(s)) == Dedup(s)
  {
    DedupOfDistinct(Dedup(s));
  }

  /** Appending only elements already present changes nothing. */
  lemma {:induction false} DedupAbsorbs<T>(s: seq<T>, t: seq<T>)
    requires forall i :: 0 <= i < |t| ==> t[i] in s
    ensures Dedup(s + t) == Dedup(s)
  {
    if t == [] {
      assert s + t == s;
    } else {
      var t', x := t[..|t| - 1], t[|t| - 1];
      DedupAbsorbs(s, t');
      assert Dedup(s + t) == Dedup(s + t') by {
        assert s + t == (s + t') + [x];
        DedupSnoc(s + t', x);
        assert x in s + t';
      }
    }
  }

  /** The distinct elements of `s` come first, in the same order. */
  lemma {:induction false} DedupPrefix<T>(s: seq<T>, t: seq<T>)
    ensures Dedup(s) <= Dedup(s + t)
  {
    if t == [] {
      assert s + t == s;
    } else {
      var t', x := t[..|t| - 1], t[|t| - 1];
      DedupPrefix(s, t');
      assert Dedup(s + t') <= Dedup(s + t) by {
        assert s + t == (s + t') + [x];
        DedupSnoc(s + t', x);
      }
      PrefixTrans(Dedup(s), Dedup(s + t'), Dedup(s + t));
    }
  }

  /** The elements of `s` that do not occur in `e`, in the order of `s`. */
  function Without<T(==)>(s: seq<T>, e: seq<T>): (r: seq<T>)
    ensures forall i :: 0 <= i < |r| ==> r[i] in s && r[i] !in e
  {
    if s == [] then []
    else
      var w := Without(s[..|s| - 1], e);
      if s[|s| - 1] in e then w else w + [s[|s| - 1]]
  }

  lemma {:induction false} WithoutMember<T>(s: seq<T>, e: seq<T>, x: T)
    ensures x in Without(s, e) <==> x in s && x !in e
  {
    if s != [] {
      WithoutMember(s[..|s| - 1], e, x);
      assert s == s[..|s| - 1] + [s[|s| - 1]];
    }
  }

  lemma WithoutSnoc<T>(s: seq<T>, e: seq<T>, x: T)
    ensures Without(s + [x], e) == if x in e then Without(s, e) else Without(s, e) + [x]
  {
    assert (s + [x])[..|s + [x]| - 1] == s;
  }

  /** Adding `t` to a set holding `s`, read back in insertion order: the
      distinct elements of `s`, then those of `t` that `s` lacks, each once
      and in the order they first occur in `t`. */
  lemma {:induction false} DedupConcat<T>(s: seq<T>, t: seq<T>)
    ensures Dedup(s + t) == Dedup(s) + Dedup(Without(t, s))
  {
    if t == [] {
      assert s + t == s;
    } else {
      var t', x := t[..|t| - 1], t[|t| - 1];
      assert t == t' + [x];
      DedupConcat(s, t');
      DedupConcatSnoc(s, t', x);
    }
  }

  lemma {:induction false} DedupConcatSnoc<T>(s: seq<T>, t: seq<T>, x: T)
    requires Dedup(s + t) == Dedup(s) + Dedup(Without(t, s))
    ensures Dedup(s + (t + [x])) == Dedup(s) + Dedup(Without(t + [x], s))
  {
    assert Dedup(s + (t + [x])) == if x in s + t then Dedup(s + t) else Dedup(s + t) + [x] by {
      assert s + (t + [x]) == (s + t) + [x];
      DedupSnoc(s + t, x);
    }
    WithoutMember(t, s, x);
    if x in s + t {
      SnocSeen(s, t, x);
    } else {
      SnocNew(s, t, x);
    }
  }

  /** An element already seen adds nothing on either side. */
  lemma SnocSeen<T>(s: seq<T>, t: seq<T>, x: T)
    requires x in s || x in Without(t, s)
    ensures Dedup(Without(t + [x], s)) == Dedup(Without(t, s))
  {
    WithoutSnoc(t, s, x);
    DedupSnoc(Without(t, s), x);
  }

  /** A new element is appended on either side. */
  lemma SnocNew<T>(s: seq<T>, t: seq<T>, x: T)
    requires x !in s && x !in Without(t, s)
    requires Dedup(s + t) == Dedup(s) + Dedup(Without(t, s))
    ensures Dedup(s + t) + [x] == Dedup(s) + Dedup(Without(t + [x], s))
  {
    var w := Without(t, s);
    WithoutSnoc(t, s, x);
    DedupSnoc(w, x);
    AppendAssoc(Dedup(s), Dedup(w), [x]);
  }

  lemma PrefixTrans<T>(a: seq<T>, b: seq<T>, c: seq<T>)
    requires a <= b && b <= c
    ensures a <= c
  {
  }

  lemma AppendAssoc<T>(a: seq<T>, b: seq<T>, c: seq<T>)
    ensures a + (b + c) == (a + b) + c
  {
  }

  /** Re-merging the same additions into an already merged sequence is a no-op. */
  lemma DedupMergeIdempotent<T>(a: seq<T>, b: seq<T>)
    ensures Dedup(Dedup(a + b) + b) == Dedup(a + b)
  {
    forall i | 0 <= i < |b| ensures b[i] in Dedup(a + b) {
      assert (a + b)[|a| + i] == b[i];
    }
    DedupAbsorbs(Dedup(a + b), b);
    DedupIdempotent(a + b);
  }

  /** Index of the first element satisfying `p`, searching from `k`. */
  function FindIndexFrom<T>(s: seq<T>, p: T -> bool, k: nat): (r: Option<nat>)
    requires k <= |s|
    ensures r.Some? ==> k <= r.value < |s| && p(s[r.value])
    ensures r.Some? ==> forall j :: k <= j < r.value ==> !p(s[j])
    ensures r.None? ==> forall j :: k <= j < |s| ==> !p(s[j])
    decreases |s| - k
  {
    if k == |s| then None
    else if p(s[k]) then Some(k)
    else FindIndexFrom(s, p, k + 1)
  }

  /** `Array.prototype.findIndex`, with `None` for "not found". */
  function FindIndex<T>(s: seq<T>, p: T -> bool): (r: Option<nat>)
    ensures r.Some? ==> r.value < |s| && p(s[r.value])
    ensures r.Some? ==> forall j :: 0 <= j < r.value ==> !p(s[j])
    ensures r.None? ==> forall j :: 0 <= j < |s| ==> !p(s[j])
  {
    FindIndexFrom(s, p, 0)
  }

  /** `Array.prototype.find`: the first element satisfying `p`. */
  function Find<T>(s: seq<T>, p: T -> bool): (r: Option<T>)
    ensures r.Some? ==> exists k :: 0 <= k < |s| && s[k] == r.value && p(s[k]) &&
                                    forall j :: 0 <= j < k ==> !p(s[j])
    ensures r.None? ==> forall j :: 0 <= j < |s| ==> !p(s[j])
  {
    match FindIndex(s, p)
    case None => None
    case Some(k) => Some(s[k])
  }

  /** The element `find` returns is the first one satisfying `p`. */
  lemma FindFirst<T>(s: seq<T>, p: T -> bool, k: nat)
    requires k < |s| && p(s[k])
    requires forall j :: 0 <= j < k ==> !p(s[j])
    ensures FindIndex(s, p) == Some(k)
    ensures Find(s, p) == Some(s[k])
  {
  }

  /** `s.filter(p).length`. */
  function Count<T>(s: seq<T>, p: T -> bool): (n: nat)
    ensures n <= |s|
  {
    if s == [] then 0
    else Count(s[..|s| - 1], p) + (if p(s[|s| - 1]) then 1 else 0)
  }

  lemma CountSnoc<T>(s: seq<T>, x: T, p: T -> bool)
    ensures Count(s + [x], p) == Count(s, p) + (if p(x) then 1 else 0)
  {
    assert (s + [x])[..|s + [x]| - 1] == s;
  }

  lemma CountPrefix<T>(s: seq<T>, i: nat, p: T -> bool)
    requires i < |s|
    ensures Count(s[..i + 1], p) == Count(s[..i], p) + (if p(s[i]) then 1 else 0)
  {
    assert s[..i + 1][..i] == s[..i];
  }

  /** Two predicates that agree on every element count the same elements. */
  lemma {:induction false} CountSame<T>(s: seq<T>, p: T -> bool, q: T -> bool)
    requires forall i :: 0 <= i < |s| ==> (p(s[i]) <==> q(s[i]))
    ensures Count(s, p) == Count(s, q)
  {
    if s != [] {
      CountSame(s[..|s| - 1], p, q);
    }
  }

  /** A predicate implied by another counts at least as many elements. */
  lemma {:induction false} CountMono<T>(s: seq<T>, p: T -> bool, q: T -> bool)
    requires forall i :: 0 <= i < |s| ==> p(s[i]) ==> q(s[i])
    ensures Count(s, p) <= Count(s, q)
  {
    if s != [] {
      CountMono(s[..|s| - 1], p, q);
    }
  }

  /** `f` applied to every element, the results concatenated in order. */
  function FlatMap<T, U>(s: seq<T>, f: T -> seq<U>): seq<U> {
    if s == [] then [] else FlatMap(s[..|s| - 1], f) + f(s[|s| - 1])
  }

  lemma FlatMapSnoc<T, U>(s: seq<T>, x: T, f: T -> seq<U>)
    ensures FlatMap(s + [x], f) == FlatMap(s, f) + f(x)
  {
    assert (s + [x])[..|s + [x]| - 1] == s;
  }

  lemma FlatMapPrefix<T, U>(s: seq<T>, j: nat, f: T -> seq<U>)
    requires j < |s|
    ensures FlatMap(s[..j + 1], f) == FlatMap(s[..j], f) + f(s[j])
  {
    assert s[..j + 1][..j] == s[..j];
  }

  lemma {:induction false} FlatMapMember<T, U>(s: seq<T>, f: T -> seq<U>, y: U)
    ensures y in FlatMap(s, f) <==> exists j :: 0 <= j < |s| && y in f(s[j])
  {
    if s != [] {
      var init := s[..|s| - 1];
      FlatMapMember(init, f, y);
      if exists j :: 0 <= j < |init| && y in f(init[j]) {
        var j :| 0 <= j < |init| && y in f(init[j]);
        assert s[j] == init[j];
      }
      if exists j :: 0 <= j < |s| && y in f(s[j]) {
        var j :| 0 <= j < |s| && y in f(s[j]);
        if j < |init| {
          assert init[j] == s[j];
        }
      }
    }
  }
}
