/** `moves.sort(key=...)` followed by `moves[0]`, as FirstMove, Alphabetical
    and ComboEngine write it: the list is sorted in place by a string key. */
module Sorting {
  import opened Chess
  import opened Lists

  /** The two sort keys in use: str(move), the UCI text, and board.san(move). */
  datatype Key = Uci | San(rules: Rules, position: seq<Move>)

  function KeyOf(k: Key, m: Move): string
  {
    match k
    case Uci => m.uci
    case San(rules, position) => rules.san(position, m)
  }

  ghost predicate SortedBy(s: seq<Move>, k: Key)
  {
    forall i, j :: 0 <= i < j < |s| ==> StrLe(KeyOf(k, s[i]), KeyOf(k, s[j]))
  }

  /** The index of the first element whose key is minimal: the element a
      stable sort by that key puts in front. */
  function FirstMinIndex(s: seq<Move>, k: Key): (i: nat)
    requires s != []
    ensures i < |s|
    ensures forall j :: 0 <= j < |s| ==> StrLe(KeyOf(k, s[i]), KeyOf(k, s[j]))
    ensures forall j :: 0 <= j < i ==> StrLess(KeyOf(k, s[i]), KeyOf(k, s[j]))
  {
    if |s| == 1 then
      StrLessIrreflexive(KeyOf(k, s[0]));
      0
    else
      var init := s[..|s| - 1];
      var i := FirstMinIndex(init, k);
      assert forall j :: 0 <= j < |init| ==> init[j] == s[j];
      if StrLess(KeyOf(k, s[|s| - 1]), KeyOf(k, s[i])) then
        assert forall j :: 0 <= j < |s| - 1 ==>
            StrLess(KeyOf(k, s[|s| - 1]), KeyOf(k, s[j])) && StrLe(KeyOf(k, s[|s| - 1]), KeyOf(k, s[j])) by {
          forall j | 0 <= j < |s| - 1
            ensures StrLess(KeyOf(k, s[|s| - 1]), KeyOf(k, s[j])) && StrLe(KeyOf(k, s[|s| - 1]), KeyOf(k, s[j]))
          {
            StrLessLe(KeyOf(k, s[|s| - 1]), KeyOf(k, s[i]), KeyOf(k, s[j]));
            StrLessAsymmetric(KeyOf(k, s[|s| - 1]), KeyOf(k, s[j]));
          }
        }
        StrLessIrreflexive(KeyOf(k, s[|s| - 1]));
        |s| - 1
      else
        i
  }

  /** The two properties of FirstMinIndex single out one index. */
  lemma FirstMinIndexUnique(s: seq<Move>, k: Key, m: nat)
    requires m < |s|
    requires forall j :: 0 <= j < |s| ==> StrLe(KeyOf(k, s[m]), KeyOf(k, s[j]))
    requires forall j :: 0 <= j < m ==> StrLess(KeyOf(k, s[m]), KeyOf(k, s[j]))
    ensures m == FirstMinIndex(s, k)
  {
    var f := FirstMinIndex(s, k);
    assert StrLe(KeyOf(k, s[m]), KeyOf(k, s[f])) && StrLe(KeyOf(k, s[f]), KeyOf(k, s[m]));
  }

  /** The first index in a[lo..] whose key is minimal there. */
  method MinIndexFrom(a: array<Move>, lo: nat, k: Key) returns (m: nat)
    requires lo < a.Length
    ensures lo <= m < a.Length
    ensures forall j :: lo <= j < a.Length ==> StrLe(KeyOf(k, a[m]), KeyOf(k, a[j]))
    ensures forall j :: lo <= j < m ==> StrLess(KeyOf(k, a[m]), KeyOf(k, a[j]))
  {
    m := lo;
    StrLessIrreflexive(KeyOf(k, a[m]));
    var j := lo + 1;
    while j < a.Length
      invariant lo <= m < j <= a.Length
      invariant forall t :: lo <= t < j ==> StrLe(KeyOf(k, a[m]), KeyOf(k, a[t]))
      invariant forall t :: lo <= t < m ==> StrLess(KeyOf(k, a[m]), KeyOf(k, a[t]))
    {
      if StrLess(KeyOf(k, a[j]), KeyOf(k, a[m])) {
        forall t | lo <= t < j
          ensures StrLess(KeyOf(k, a[j]), KeyOf(k, a[t])) && StrLe(KeyOf(k, a[j]), KeyOf(k, a[t]))
        {
          StrLessLe(KeyOf(k, a[j]), KeyOf(k, a[m]), KeyOf(k, a[t]));
          StrLessAsymmetric(KeyOf(k, a[j]), KeyOf(k, a[t]));
        }
        StrLessIrreflexive(KeyOf(k, a[j]));
        m := j;
      }
      j := j + 1;
    }
  }

  /** The first `i` elements are in key order. */
  ghost predicate SortedPrefix(s: seq<Move>, i: nat, k: Key)
  {
    forall p, q :: 0 <= p < q < i && q < |s| ==> StrLe(KeyOf(k, s[p]), KeyOf(k, s[q]))
  }

  /** No element of the first `i` has a key above an element after them. */
  ghost predicate PrefixBelow(s: seq<Move>, i: nat, k: Key)
  {
    forall p, q :: 0 <= p < i <= q < |s| ==> StrLe(KeyOf(k, s[p]), KeyOf(k, s[q]))
  }

  /** Swapping a key-minimal element of s[i..] into place i extends the sorted prefix by one. */
  lemma SelectionStep(s: seq<Move>, i: nat, m: nat, k: Key)
    requires i <= m < |s|
    requires SortedPrefix(s, i, k) && PrefixBelow(s, i, k)
    requires forall j :: i <= j < |s| ==> StrLe(KeyOf(k, s[m]), KeyOf(k, s[j]))
    ensures SortedPrefix(s[i := s[m]][m := s[i]], i + 1, k)
    ensures PrefixBelow(s[i := s[m]][m := s[i]], i + 1, k)
  {
  }

  method Swap(a: array<Move>, i: nat, j: nat)
    requires i < a.Length && j < a.Length
    modifies a
    ensures a[..] == old(a[..])[i := old(a[j])][j := old(a[i])]
    ensures multiset(a[..]) == multiset(old(a[..]))
  {
    a[i], a[j] := a[j], a[i];
  }

  /** list.sort(key=...) then [0]: sorts `a` in place by key, keeping its
      elements, and puts the first key-minimal element in front. */
  method SortByKey(a: array<Move>, k: Key)
    modifies a
    ensures SortedBy(a[..], k)
    ensures multiset(a[..]) == multiset(old(a[..]))
    ensures a.Length > 0 ==> a[0] == old(a[..])[FirstMinIndex(old(a[..]), k)]
  {
    var i := 0;
    while i < a.Length
      invariant 0 <= i <= a.Length
      invariant i == 0 ==> a[..] == old(a[..])
      invariant SortedPrefix(a[..], i, k) && PrefixBelow(a[..], i, k)
      invariant multiset(a[..]) == multiset(old(a[..]))
      invariant i > 0 ==> a[0] == old(a[..])[FirstMinIndex(old(a[..]), k)]
    {
      var m := MinIndexFrom(a, i, k);
      ghost var s := a[..];
      assert forall j :: i <= j < |s| ==> StrLe(KeyOf(k, s[m]), KeyOf(k, s[j]));
      if i == 0 {
        FirstMinIndexUnique(s, k, m);
      }
      SelectionStep(s, i, m, k);
      Swap(a, i, m);
      assert a[0] == (if i == 0 then s[m] else s[0]);
      i := i + 1;
    }
  }
}
