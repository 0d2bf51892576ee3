/** List helpers the strategies share: the order-preserving filter that
    every `for ... if ...: xs.append(...)` loop builds, random.choice with
    the randomness made an index, and Python's ordering of strings. */
module Lists {
  import opened Chess

  /** The elements of `s` that satisfy `p`, in their order in `s`. */
  function Filter<T>(p: T -> bool, s: seq<T>): (r: seq<T>)
    ensures |r| <= |s|
    ensures forall x :: x in r ==> x in s && p(x)
    ensures forall x :: x in s && p(x) ==> x in r
  {
    if s == [] then []
    else
      var init := Filter(p, s[..|s| - 1]);
      assert s == s[..|s| - 1] + [s[|s| - 1]];
      if p(s[|s| - 1]) then init + [s[|s| - 1]] else init
  }

  /** Filtering a concatenation filters each part: the filter keeps the order of `s`. */
  lemma {:induction false} FilterAppend<T>(p: T -> bool, a: seq<T>, b: seq<T>)
    ensures Filter(p, a + b) == Filter(p, a) + Filter(p, b)
  {
    if b == [] {
      assert a + b == a;
    } else {
      var b' := b[..|b| - 1];
      assert (a + b)[..|a + b| - 1] == a + b';
      assert (a + b)[|a + b| - 1] == b[|b| - 1];
      FilterAppend(p, a, b');
    }
  }

  /** random.choice(s), with the random draw given as `pick`. */
  function Choose<T>(s: seq<T>, pick: nat): (r: Result<T>)
    ensures r.Ok? <==> s != []
    ensures r.Ok? ==> r.value in s
    ensures s == [] ==> r == Err(IndexError)
  {
    if s == [] then Err(IndexError) else Ok(s[pick % |s|])
  }

  /** Every element of a non-empty list is the outcome of some draw. */
  lemma ChooseReachesEvery<T>(s: seq<T>)
    ensures forall x :: x in s ==> exists pick: nat :: Choose(s, pick) == Ok(x)
  {
    forall x | x in s
      ensures exists pick: nat :: Choose(s, pick) == Ok(x)
    {
      var k :| 0 <= k < |s| && s[k] == x;
      assert Choose(s, k) == Ok(x);
    }
  }

  /** Python's `<` on str: lexicographic by code point, a proper prefix first. */
  predicate StrLess(a: string, b: string)
  {
    if a == [] then b != []
    else if b == [] then false
    else if a[0] != b[0] then a[0] < b[0]
    else StrLess(a[1..], b[1..])
  }

  /** Python's `<=` on str. */
  predicate StrLe(a: string, b: string)
  {
    !StrLess(b, a)
  }

  lemma {:induction false} StrLessIrreflexive(a: string)
    ensures !StrLess(a, a)
  {
    if a != [] {
      StrLessIrreflexive(a[1..]);
    }
  }

  lemma {:induction false} StrLessTransitive(a: string, b: string, c: string)
    requires StrLess(a, b) && StrLess(b, c)
    ensures StrLess(a, c)
  {
    if a != [] && a[0] == b[0] && b[0] == c[0] {
      StrLessTransitive(a[1..], b[1..], c[1..]);
    }
  }

  lemma StrLessAsymmetric(a: string, b: string)
    requires StrLess(a, b)
    ensures !StrLess(b, a)
  {
    if StrLess(b, a) {
      StrLessTransitive(a, b, a);
      StrLessIrreflexive(a);
    }
  }

  /** Two different strings are always ordered one way or the other. */
  lemma {:induction false} StrLessTotal(a: string, b: string)
    requires a != b
    ensures StrLess(a, b) || StrLess(b, a)
  {
    if a != [] && b != [] && a[0] == b[0] {
      assert a == [a[0]] + a[1..] && b == [b[0]] + b[1..];
      StrLessTotal(a[1..], b[1..]);
    }
  }

  /** A strict step followed by a weak one is strict. */
  lemma StrLessLe(a: string, b: string, c: string)
    requires StrLess(a, b) && StrLe(b, c)
    ensures StrLess(a, c)
  {
    if b == c {
    } else {
      StrLessTotal(b, c);
      StrLessTransitive(a, b, c);
    }
  }

  /** `<=` on str is transitive. */
  lemma StrLeTransitive(a: string, b: string, c: string)
    requires StrLe(a, b) && StrLe(b, c)
    ensures StrLe(a, c)
  {
    if StrLess(c, a) {
      if a == b {
      } else {
        StrLessTotal(a, b);
        StrLessLe(c, a, b);
      }
    }
  }
}
