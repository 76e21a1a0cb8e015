/** The leaderboard's insertion sort: descending by score, stable, in place. */
module Leaderboard {
  import opened Common

  datatype Record = Record(user: Address, score: int, level: nat, lastUpdated: nat, totalUpdates: nat)

  ghost predicate Descending(s: seq<Record>) {
    forall i, j :: 0 <= i < j < |s| ==> s[i].score >= s[j].score
  }

  /** The entries with one score, in their order. */
  function WithScore(s: seq<Record>, score: int): seq<Record> {
    if s == [] then []
    else
      var before := WithScore(s[..|s| - 1], score);
      if s[|s| - 1].score == score then before + [s[|s| - 1]] else before
  }

  /** `s` is a stable descending arrangement of `list`: sorted, and entries of equal score keep their order. */
  ghost predicate StableRanking(s: seq<Record>, list: seq<Record>) {
    Descending(s) && forall score :: WithScore(s, score) == WithScore(list, score)
  }

  /** `r` put behind every entry with at least its score. */
  function Insert(s: seq<Record>, r: Record): seq<Record> {
    if s == [] || s[|s| - 1].score >= r.score then s + [r]
    else Insert(s[..|s| - 1], r) + [s[|s| - 1]]
  }

  function Ranked(list: seq<Record>): seq<Record> {
    if list == [] then [] else Insert(Ranked(list[..|list| - 1]), list[|list| - 1])
  }

  // ---------- Ranked is the stable ranking, and the only one ----------

  lemma {:induction false} WithScoreAppend(s: seq<Record>, r: Record, score: int)
    ensures WithScore(s + [r], score) == if r.score == score then WithScore(s, score) + [r] else WithScore(s, score)
  {
    assert (s + [r])[..|s|] == s;
  }

  lemma {:induction false} InsertKeeps(s: seq<Record>, r: Record, score: int)
    ensures WithScore(Insert(s, r), score)
         == if r.score == score then WithScore(s, score) + [r] else WithScore(s, score)
  {
    if s == [] || s[|s| - 1].score >= r.score {
      WithScoreAppend(s, r, score);
    } else {
      var init, last := s[..|s| - 1], s[|s| - 1];
      InsertKeeps(init, r, score);
      WithScoreAppend(Insert(init, r), last, score);
    }
  }

  lemma {:induction false} InsertPermutes(s: seq<Record>, r: Record)
    ensures multiset(Insert(s, r)) == multiset(s) + multiset{r}
  {
    if s != [] && s[|s| - 1].score < r.score {
      assert s == s[..|s| - 1] + [s[|s| - 1]];
      InsertPermutes(s[..|s| - 1], r);
    }
  }

  lemma {:induction false} InsertDescending(s: seq<Record>, r: Record)
    requires Descending(s)
    ensures Descending(Insert(s, r))
    ensures forall x :: x in Insert(s, r) ==> x == r || x in s
  {
    if s != [] && s[|s| - 1].score < r.score {
      var init, last := s[..|s| - 1], s[|s| - 1];
      InsertDescending(init, r);
      var t := Insert(init, r);
      forall i | 0 <= i < |t| ensures t[i].score >= last.score {
        assert t[i] in t;
      }
    }
  }

  lemma {:induction false} RankedDescending(list: seq<Record>)
    ensures Descending(Ranked(list))
  {
    if list != [] {
      RankedDescending(list[..|list| - 1]);
      InsertDescending(Ranked(list[..|list| - 1]), list[|list| - 1]);
    }
  }

  lemma {:induction false} RankedKeepsOrder(list: seq<Record>, score: int)
    ensures WithScore(Ranked(list), score) == WithScore(list, score)
  {
    if list != [] {
      RankedKeepsOrder(list[..|list| - 1], score);
      InsertKeeps(Ranked(list[..|list| - 1]), list[|list| - 1], score);
    }
  }

  /** The result is a permutation of the records. */
  lemma {:induction false} RankedPermutes(list: seq<Record>)
    ensures multiset(Ranked(list)) == multiset(list) && |Ranked(list)| == |list|
  {
    if list != [] {
      assert list == list[..|list| - 1] + [list[|list| - 1]];
      RankedPermutes(list[..|list| - 1]);
      InsertPermutes(Ranked(list[..|list| - 1]), list[|list| - 1]);
    }
    assert |multiset(Ranked(list))| == |Ranked(list)|;
  }

  lemma {:induction false} RankedIsStableRanking(list: seq<Record>)
    ensures StableRanking(Ranked(list), list)
  {
    RankedDescending(list);
    forall score ensures WithScore(Ranked(list), score) == WithScore(list, score) {
      RankedKeepsOrder(list, score);
    }
  }

  lemma {:induction false} WithScoreMembers(s: seq<Record>, score: int)
    ensures forall x :: x in WithScore(s, score) <==> x in s && x.score == score
  {
    if s != [] {
      WithScoreMembers(s[..|s| - 1], score);
      assert s == s[..|s| - 1] + [s[|s| - 1]];
    }
  }

  lemma {:induction false} SnocInjective<T>(s: seq<T>, x: T, t: seq<T>, y: T)
    requires s + [x] == t + [y]
    ensures s == t && x == y
  {
    assert |s| == |t|;
    assert (s + [x])[..|s|] == s && (t + [y])[..|t|] == t;
    assert (s + [x])[|s|] == x && (t + [y])[|t|] == y;
  }

  /** Entry by entry the same selections: what two stable rankings of one list have in common. */
  ghost predicate SameSelections(s: seq<Record>, t: seq<Record>) {
    forall score :: WithScore(s, score) == WithScore(t, score)
  }

  /** Sorted and stable fixes the order completely. */
  lemma {:induction false} StableRankingIsUnique(s: seq<Record>, t: seq<Record>, list: seq<Record>)
    requires StableRanking(s, list) && StableRanking(t, list)
    ensures s == t
  {
    SameSelectionsSameOrder(s, t);
  }

  lemma {:induction false} SameSelectionsSameOrder(s: seq<Record>, t: seq<Record>)
    requires Descending(s) && Descending(t) && SameSelections(s, t)
    ensures s == t
    decreases |s|
  {
    if s == [] {
      if t != [] { SelectionNonEmpty(t); }
    } else if t == [] {
      SelectionNonEmpty(s);
    } else {
      var x, y := s[|s| - 1], t[|t| - 1];
      var s', t' := s[..|s| - 1], t[..|t| - 1];
      LastIsLowest(s, t);
      LastIsLowest(t, s);
      assert s == s' + [x] && t == t' + [y];
      forall score ensures WithScore(s', score) == WithScore(t', score) {
        WithScoreAppend(s', x, score);
        WithScoreAppend(t', y, score);
        if score == x.score {
          SnocInjective(WithScore(s', score), x, WithScore(t', score), y);
        }
      }
      WithScoreAppend(s', x, x.score);
      WithScoreAppend(t', y, x.score);
      SnocInjective(WithScore(s', x.score), x, WithScore(t', x.score), y);
      SameSelectionsSameOrder(s', t');
    }
  }

  lemma {:induction false} SelectionNonEmpty(s: seq<Record>)
    requires s != []
    ensures WithScore(s, s[0].score) != []
  {
    WithScoreMembers(s, s[0].score);
    assert s[0] in s;
  }

  lemma {:induction false} LastIsLowest(s: seq<Record>, t: seq<Record>)
    requires s != [] && t != [] && Descending(t) && SameSelections(s, t)
    ensures t[|t| - 1].score <= s[|s| - 1].score
  {
    var x := s[|s| - 1];
    WithScoreMembers(s, x.score);
    assert x in WithScore(t, x.score);
    WithScoreMembers(t, x.score);
    assert x in t;
  }

  // ---------- The sort ----------

  predicate AllBelow(s: seq<Record>, from: nat, score: int) {
    forall k :: from <= k < |s| ==> s[k].score < score
  }

  /** Where the inner loop stops is where `Insert` puts the entry. */
  lemma {:induction false} InsertAt(s: seq<Record>, r: Record, j: nat)
    requires j <= |s|
    requires j == 0 || s[j - 1].score >= r.score
    requires AllBelow(s, j, r.score)
    ensures Insert(s, r) == s[..j] + [r] + s[j..]
  {
    if j < |s| {
      var init := s[..|s| - 1];
      InsertAt(init, r, j);
      assert init[..j] == s[..j] && init[j..] + [s[|s| - 1]] == s[j..];
    }
  }

  /** Moves the entry at `i` down to its place among the ranked entries before it. */
  method SiftDown(a: array<Record>, i: nat)
    requires i < a.Length
    modifies a
    ensures a[..i + 1] == Insert(old(a[..i]), old(a[i]))
    ensures a[i + 1..] == old(a[i + 1..])
  {
    ghost var s, r := a[..i], a[i];
    var j := i;
    while j > 0
      invariant 0 <= j <= i
      invariant a[j] == r
      invariant forall k :: 0 <= k < j ==> a[k] == s[k]
      invariant forall k :: j < k <= i ==> a[k] == s[k - 1]
      invariant forall k :: j <= k < i ==> s[k].score < r.score
      invariant a[i + 1..] == old(a[i + 1..])
    {
      var high, low := a[j - 1].score, a[j].score;
      if high < low {
        var tmpA, tmpB := a[j - 1], a[j];
        a[j - 1] := tmpB;
        a[j] := tmpA;
        j := j - 1;
      } else {
        break;
      }
    }
    InsertAt(s, r, j);
    assert a[..i + 1] == s[..j] + [r] + s[j..];
  }

  method InsertionSort(a: array<Record>)
    modifies a
    ensures a[..] == Ranked(old(a[..]))
  {
    ghost var list := a[..];
    var i := 1;
    if a.Length > 0 { RankedOfOne(list); }
    while i < a.Length
      invariant 1 <= i
      invariant i <= a.Length || a.Length == 0
      invariant 0 < a.Length ==> a[..i] == Ranked(list[..i]) && a[i..] == list[i..]
    {
      NextToRank(a[i..], list, i);
      SiftDown(a, i);
      i := i + 1;
    }
    assert a[..a.Length] == a[..];
    assert list[..a.Length] == list;
  }

  lemma {:induction false} RankedOfOne(list: seq<Record>)
    requires list != []
    ensures Ranked(list[..1]) == list[..1]
  {
    assert list[..1] == [list[0]] && [list[0]][..0] == [];
  }

  /** The next record of the part still to be sorted, what remains of it, and the ranking with the record inserted. */
  lemma {:induction false} NextToRank(rest: seq<Record>, list: seq<Record>, i: nat)
    requires i < |list| && rest == list[i..]
    ensures rest[0] == list[i] && rest[1..] == list[i + 1..]
    ensures Ranked(list[..i + 1]) == Insert(Ranked(list[..i]), list[i])
  {
    assert list[..i + 1][..i] == list[..i];
  }
}
