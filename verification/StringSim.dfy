/** common/Strops.cpp, CalStringSim: how alike two strings are, by the n-grams they share.
    The result is the exact ratio; the source rounds it to a float. */
module StringSim {

  // ---------- What is being counted ----------

  /** The n-grams of s from position `from` on, in order. */
  function GramsFrom(s: string, n: nat, from: nat): seq<string>
    decreases |s| + 1 - from
  {
    if from + n > |s| then [] else [s[from..from + n]] + GramsFrom(s, n, from + 1)
  }

  ghost function Bag(s: string, n: nat): multiset<string>
  {
    multiset(GramsFrom(s, n, 0))
  }

  predicate OccursAt(s: string, t: string, i: nat) {
    i + |t| <= |s| && s[i..i + |t|] == t
  }

  ghost predicate Contains(s: string, t: string) {
    exists i :: OccursAt(s, t, i)
  }

  /** The similarity of two strings, from its definition. */
  ghost function Similarity(s1: string, s2: string, n: nat): real
  {
    var len1, len2 := |s1|, |s2|;
    if len1 == 0 || len2 == 0 then 0.0
    else if len1 < n || len2 < n then
      if len1 <= len2 then (if Contains(s2, s1) then 1.0 else 0.0) / (len2 - len1 + 1) as real
      else (if Contains(s1, s2) then 1.0 else 0.0) / (len1 - len2 + 1) as real
    else
      (2 * |Bag(s1, n) * Bag(s2, n)|) as real / (len1 + len2 - 2 * n + 2) as real
  }

  // ---------- The code ----------

  /** strstr(s, t) != NULL */
  method Strstr(s: string, t: string) returns (found: bool)
    ensures found <==> Contains(s, t)
  {
    var i := 0;
    while i + |t| <= |s|
      invariant forall j :: 0 <= j < i ==> !OccursAt(s, t, j)
    {
      if OccursAt(s, t, i) { return true; }
      i := i + 1;
    }
    return false;
  }

  /** The map as a bag: each key as often as its count. */
  ghost predicate Counts(m: map<string, int>, bag: multiset<string>) {
    && (forall g :: g in m ==> m[g] > 0 && m[g] == bag[g])
    && (forall g :: g in bag ==> g in m)
  }

  /** imap[gram]++ over the grams of s. */
  method CountGrams(s: string, n: nat) returns (grams: map<string, int>)
    requires n <= |s|
    ensures Counts(grams, Bag(s, n))
  {
    grams := map[];
    ghost var seen: multiset<string> := multiset{};
    for i := 0 to |s| - n + 1
      invariant Counts(grams, seen)
      invariant seen + multiset(GramsFrom(s, n, i)) == Bag(s, n)
    {
      var gram := s[i..i + n];
      GramsStep(s, n, i, seen);
      grams := grams[gram := (if gram in grams then grams[gram] else 0) + 1];
      seen := seen + multiset{gram};
    }
  }

  lemma GramsStep(s: string, n: nat, i: nat, seen: multiset<string>)
    requires i + n <= |s|
    ensures multiset(GramsFrom(s, n, i)) == multiset{s[i..i + n]} + multiset(GramsFrom(s, n, i + 1))
    ensures seen + multiset(GramsFrom(s, n, i)) ==
            (seen + multiset{s[i..i + n]}) + multiset(GramsFrom(s, n, i + 1))
  {
  }

  /** The loop that uses up the map: each gram of s matched against one left in it. */
  method Consume(s: string, n: nat, counts: map<string, int>, ghost bag: multiset<string>) returns (common: nat)
    requires n <= |s| && Counts(counts, bag)
    ensures common == |Bag(s, n) * bag|
  {
    hide GramsFrom, Counts;
    common := 0;
    var grams := counts;
    ghost var left := bag;
    for i := 0 to |s| - n + 1
      invariant Counts(grams, left)
      invariant common + |multiset(GramsFrom(s, n, i)) * left| == |Bag(s, n) * bag|
    {
      var gram := s[i..i + n];
      ghost var rest := multiset(GramsFrom(s, n, i + 1));
      GramsStep(s, n, i, multiset{});
      UseOne(grams, left, gram);
      if gram in grams {
        MatchOne(gram, rest, left);
        common := common + 1;
        grams := grams[gram := grams[gram] - 1];
        if grams[gram] == 0 { grams := grams - {gram}; }
        left := left - multiset{gram};
      } else {
        MatchNone(gram, rest, left);
      }
    }
    NoMoreGrams(s, n);
    assert multiset(GramsFrom(s, n, |s| - n + 1)) * left == multiset{};
  }

  lemma NoMoreGrams(s: string, n: nat)
    requires n <= |s|
    ensures GramsFrom(s, n, |s| - n + 1) == []
  {
  }

  /** Decrementing a count, or erasing it at zero, takes one gram out of the bag. */
  lemma UseOne(m: map<string, int>, bag: multiset<string>, g: string)
    requires Counts(m, bag)
    ensures g in m <==> g in bag
    ensures g in m ==> var d := m[g := m[g] - 1];
                       Counts(if d[g] == 0 then d - {g} else d, bag - multiset{g})
  {
  }

  lemma MatchOne(g: string, rest: multiset<string>, left: multiset<string>)
    requires g in left
    ensures |(multiset{g} + rest) * left| == 1 + |rest * (left - multiset{g})|
  {
    assert (multiset{g} + rest) * left == multiset{g} + rest * (left - multiset{g});
  }

  lemma MatchNone(g: string, rest: multiset<string>, left: multiset<string>)
    requires g !in left
    ensures (multiset{g} + rest) * left == rest * left
  {
  }

  /** An empty string stands for a null pointer too. */
  method CalStringSim(s1: string, s2: string, n: nat) returns (sim: real)
    ensures sim == Similarity(s1, s2, n)
  {
    if |s1| == 0 || |s2| == 0 { return 0.0; }
    var len1, len2 := |s1|, |s2|;
    if len1 < n && len1 <= len2 {
      var found := Strstr(s2, s1);
      return (if found then 1.0 else 0.0) / (len2 - len1 + 1) as real;
    }
    if len2 < n && len2 <= len1 {
      var found := Strstr(s1, s2);
      if len1 == len2 { SameLengthContains(s1, s2); }
      return (if found then 1.0 else 0.0) / (len1 - len2 + 1) as real;
    }
    var grams := CountGrams(s2, n);
    var common := Consume(s1, n, grams, Bag(s2, n));
    return (2 * common) as real / (len1 + len2 - 2 * n + 2) as real;
  }

  // ---------- Properties of the similarity ----------

  lemma SameLengthContains(s: string, t: string)
    requires |s| == |t|
    ensures Contains(s, t) <==> s == t
  {
    assert s[0..|s|] == s;
    assert s == t ==> OccursAt(s, t, 0);
  }

  lemma {:induction false} GramCount(s: string, n: nat, from: nat)
    requires from + n <= |s| + 1
    ensures |GramsFrom(s, n, from)| == |s| - n + 1 - from
    ensures forall i :: 0 <= i < |GramsFrom(s, n, from)| ==> GramsFrom(s, n, from)[i] == s[from + i..from + i + n]
    decreases |s| + 1 - from
  {
    if from + n <= |s| {
      GramCount(s, n, from + 1);
      assert forall i :: 0 < i < |GramsFrom(s, n, from)| ==>
               GramsFrom(s, n, from)[i] == GramsFrom(s, n, from + 1)[i - 1];
    }
  }

  lemma BagSize(s: string, n: nat)
    requires n <= |s|
    ensures |Bag(s, n)| == |s| - n + 1
  {
    GramCount(s, n, 0);
  }

  lemma Commutes(a: multiset<string>, b: multiset<string>)
    ensures a * b == b * a
  {
  }

  lemma PartOf(a: multiset<string>, b: multiset<string>)
    ensures |a * b| <= |a| && |a * b| <= |b|
    ensures |a * b| == |a| == |b| <==> a == b
  {
    var c := a * b;
    assert a == c + (a - c) && b == c + (b - c);
    if |c| == |a| == |b| {
      assert |a - c| == 0 && |b - c| == 0;
    }
    if a == b { assert c == a; }
  }

  /** The similarity does not depend on the order of the strings. */
  lemma Symmetric(s1: string, s2: string, n: nat)
    ensures Similarity(s1, s2, n) == Similarity(s2, s1, n)
  {
    if |s1| == |s2| {
      SameLengthContains(s1, s2);
      SameLengthContains(s2, s1);
    }
    Commutes(Bag(s1, n), Bag(s2, n));
  }

  lemma RatioRange(a: int, b: int)
    requires 0 <= a <= b && b > 0
    ensures 0.0 <= a as real / b as real <= 1.0
    ensures a as real / b as real == 1.0 <==> a == b
  {
    var x, y := a as real, b as real;
    assert x / y == 1.0 <==> x == y;
  }

  lemma SharedAndOwn(a: multiset<string>, b: multiset<string>)
    ensures |a| == |a * b| + |a - b| && |b| == |a * b| + |b - a|
  {
    assert a == a * b + (a - b) && b == a * b + (b - a);
  }

  /** What a similarity lacks to 1, in parts of a total. */
  ghost function Missing(sim: real, total: int): real {
    (1.0 - sim) * total as real
  }

  lemma Distance(shared: int, total: int, own: int)
    requires total > 0 && total == 2 * shared + own
    ensures Missing((2 * shared) as real / total as real, total) == own as real
  {
    var x, y := (2 * shared) as real, total as real;
    assert x / y * y == x;
    assert (1.0 - x / y) * y == y - x / y * y;
  }

  /** What is missing to 1, in parts of all the n-grams of both strings, is what only one of them has. */
  lemma WhatIsMissing(s1: string, s2: string, n: nat)
    requires s1 != "" && s2 != "" && n <= |s1| && n <= |s2|
    ensures var a, b := Bag(s1, n), Bag(s2, n);
            && |a| == |s1| - n + 1 && |b| == |s2| - n + 1
            && Missing(Similarity(s1, s2, n), |a| + |b|) == (|a - b| + |b - a|) as real
  {
    hide *;
    var a, b := Bag(s1, n), Bag(s2, n);
    BagSize(s1, n);
    BagSize(s2, n);
    SharedAndOwn(a, b);
    RatioOfGrams(s1, s2, n, |a * b|, |a| + |b|);
    Distance(|a * b|, |a| + |b|, |a - b| + |b - a|);
  }

  lemma RatioOfGrams(s1: string, s2: string, n: nat, shared: int, total: int)
    requires s1 != "" && s2 != "" && n <= |s1| && n <= |s2|
    requires shared == |Bag(s1, n) * Bag(s2, n)| && total == |s1| + |s2| - 2 * n + 2
    ensures Similarity(s1, s2, n) == (2 * shared) as real / total as real
  {
    hide Bag, Contains;
  }

  /** A string too short for an n-gram is similar only to strings it occurs in, or that occur in it,
      by one part in one more than the difference of their lengths; an empty one to none. */
  lemma ShortStrings(s: string, t: string, n: nat)
    requires |s| <= |t| && (|s| < n || s == "")
    ensures var sim := Similarity(s, t, n);
            if s != "" && Contains(t, s) then sim * (|t| - |s| + 1) as real == 1.0 else sim == 0.0
  {
    var d := (|t| - |s| + 1) as real;
    assert 1.0 / d * d == 1.0 && 0.0 / d == 0.0;
  }

  /** It lies between 0 and 1. It is 1 exactly for strings with the same n-grams, each equally
      often; for strings too short for that, exactly when they are equal. */
  lemma RangeAndOne(s1: string, s2: string, n: nat)
    ensures 0.0 <= Similarity(s1, s2, n) <= 1.0
    ensures Similarity(s1, s2, n) == 1.0 <==>
              && s1 != "" && s2 != ""
              && (if |s1| < n || |s2| < n then s1 == s2 else Bag(s1, n) == Bag(s2, n))
  {
    var len1, len2 := |s1|, |s2|;
    if len1 == 0 || len2 == 0 {
    } else if len1 < n || len2 < n {
      ShortRange(s1, s2, n);
    } else {
      var a, b := Bag(s1, n), Bag(s2, n);
      BagSize(s1, n);
      BagSize(s2, n);
      PartOf(a, b);
      RatioRange(2 * |a * b|, len1 + len2 - 2 * n + 2);
    }
  }

  lemma ShortRange(s1: string, s2: string, n: nat)
    requires s1 != "" && s2 != "" && (|s1| < n || |s2| < n)
    ensures 0.0 <= Similarity(s1, s2, n) <= 1.0
    ensures Similarity(s1, s2, n) == 1.0 <==> s1 == s2
  {
    if |s1| <= |s2| {
      RatioRange(if Contains(s2, s1) then 1 else 0, |s2| - |s1| + 1);
    } else {
      RatioRange(if Contains(s1, s2) then 1 else 0, |s1| - |s2| + 1);
    }
    if |s1| == |s2| { SameLengthContains(s2, s1); }
  }

  /** A non-empty string is entirely similar to itself. */
  lemma SelfSimilar(s: string, n: nat)
    requires s != ""
    ensures Similarity(s, s, n) == 1.0
  {
    RangeAndOne(s, s, n);
  }
}
