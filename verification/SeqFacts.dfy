/** Facts about sequences that the solver is better told than left to find. */
module SeqFacts {
  lemma RemoveAt<T>(a: seq<T>, x: T, b: seq<T>)
    ensures var s := a + [x] + b;
            s[|a|] == x && s[..|a|] == a && s[|a| + 1..] == b && s[..|a|] + s[|a| + 1..] == a + b
  {
  }

  lemma UpdateAt<T>(a: seq<T>, x: T, y: T, b: seq<T>)
    ensures var s := a + [x] + b;
            s[|a|] == x && s[|a| := y] == a + [y] + b
  {
  }

  lemma SplitAt<T>(s: seq<T>, i: nat)
    requires i < |s|
    ensures s[..i + 1] == s[..i] + [s[i]]
    ensures s[i..] == [s[i]] + s[i + 1..]
  {
  }

  lemma Assoc<T>(a: seq<T>, b: seq<T>, c: seq<T>)
    ensures a + b + c == a + (b + c)
  {
  }

  /** Index of the first element that satisfies p, |s| if none does. */
  function First<T>(s: seq<T>, p: T -> bool): (i: nat)
    ensures i <= |s|
    ensures i < |s| ==> p(s[i])
    ensures forall k | 0 <= k < i :: !p(s[k])
  {
    if s == [] || p(s[0]) then 0 else 1 + First(s[1..], p)
  }

  /** The elements that satisfy p, in order. */
  function Filter<T>(s: seq<T>, p: T -> bool): (r: seq<T>)
    ensures |r| <= |s|
  {
    if s == [] then []
    else Filter(s[..|s| - 1], p) + if p(s[|s| - 1]) then [s[|s| - 1]] else []
  }

  lemma {:induction false} FilterHas<T>(s: seq<T>, p: T -> bool, x: T)
    ensures x in Filter(s, p) <==> x in s && p(x)
    decreases |s|
  {
    if s != [] {
      FilterHas(s[..|s| - 1], p, x);
      assert s == s[..|s| - 1] + [s[|s| - 1]];
    }
  }

  lemma FilterTake<T>(s: seq<T>, i: nat, p: T -> bool)
    requires i < |s|
    ensures Filter(s[..i + 1], p) == Filter(s[..i], p) + if p(s[i]) then [s[i]] else []
  {
    assert s[..i + 1][..i] == s[..i];
  }

  lemma FirstUpTo<T>(s: seq<T>, p: T -> bool, i: nat)
    requires i < |s| && p(s[i])
    ensures First(s, p) <= i
  {
  }

  method Find<T>(s: seq<T>, p: T -> bool) returns (i: nat)
    ensures i == First(s, p)
  {
    i := 0;
    assert s[0..] == s;
    while i < |s|
      invariant i <= |s|
      invariant First(s, p) == i + First(s[i..], p)
    {
      if p(s[i]) {
        return;
      }
      assert s[i..][1..] == s[i + 1..];
      i := i + 1;
    }
  }

  /** Elements that do not satisfy p are removed, last first. */
  method Retain<T>(s: seq<T>, p: T -> bool) returns (r: seq<T>)
    ensures r == Filter(s, p)
  {
    ghost var kept := [];
    r := s;
    var i := |s|;
    assert s[..i] == s && s + kept == s && Filter(s, p) + kept == Filter(s, p);
    assert s[..0] == [] && Filter(s[..0], p) == [];
    hide Filter;
    while i > 0
      invariant 0 <= i <= |s|
      invariant r == s[..i] + kept
      invariant Filter(s[..i], p) + kept == Filter(s, p)
    {
      i := i - 1;
      FilterTake(s, i, p);
      SplitAt(s, i);
      RemoveAt(s[..i], s[i], kept);
      Assoc(s[..i], [s[i]], kept);
      Assoc(Filter(s[..i], p), [s[i]], kept);
      if !p(r[i]) {
        r := r[..i] + r[i + 1..];
      } else {
        kept := [s[i]] + kept;
      }
    }
  }
}
