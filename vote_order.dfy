/** The queue order of backend/app.py: `queue.sort(key=votes, reverse=True)`,
    a stable sort that puts higher scores first and keeps entries with equal
    scores in their previous relative order. */
module VoteOrder {
  import opened PartyData

  /** Scores never increase along the queue. */
  predicate SortedByVotes(q: seq<Song>) {
    forall i, j :: 0 <= i < j < |q| ==> q[i].votes >= q[j].votes
  }

  /** Inserts `x` into `s` just after the last of the trailing entries whose
      score is at least that of `x`, shifting lower-scored entries right. */
  function InsertByVotes(s: seq<Song>, x: Song): seq<Song>
  {
    if s == [] || s[|s| - 1].votes >= x.votes then s + [x]
    else InsertByVotes(s[..|s| - 1], x) + [s[|s| - 1]]
  }

  /** The position at which InsertByVotes places `x`. */
  function InsertPos(s: seq<Song>, x: Song): (k: nat)
    ensures k <= |s|
  {
    if s == [] || s[|s| - 1].votes >= x.votes then |s|
    else InsertPos(s[..|s| - 1], x)
  }

  /** Insertion sort, taking the entries in queue order. */
  function SortByVotes(q: seq<Song>): seq<Song>
  {
    if q == [] then [] else InsertByVotes(SortByVotes(q[..|q| - 1]), q[|q| - 1])
  }

  /** `[y]` when `y` scores `v`, else nothing. */
  function Tally(y: Song, v: int): seq<Song>
  {
    if y.votes == v then [y] else []
  }

  /** The entries of `s` whose score is `v`, in the order of `s`. */
  function WithScore(s: seq<Song>, v: int): seq<Song>
  {
    if s == [] then [] else WithScore(s[..|s| - 1], v) + Tally(s[|s| - 1], v)
  }

  lemma {:induction false} InsertByVotesAt(s: seq<Song>, x: Song)
    ensures var k := InsertPos(s, x);
      && InsertByVotes(s, x) == s[..k] + [x] + s[k..]
      && (forall i :: k <= i < |s| ==> s[i].votes < x.votes)
      && (SortedByVotes(s) ==> forall i :: 0 <= i < k ==> s[i].votes >= x.votes)
  {
    if s == [] || s[|s| - 1].votes >= x.votes {
      assert s[..|s|] == s && s[|s|..] == [];
    } else {
      var init, last := s[..|s| - 1], s[|s| - 1];
      assert InsertByVotes(s, x) == InsertByVotes(init, x) + [last];
      var k := InsertPos(init, x);
      assert InsertPos(s, x) == k;
      InsertByVotesAt(init, x);
      assert s == init + [last];
      assert s[..k] == init[..k];
      assert s[k..] == init[k..] + [last];
      forall i | k <= i < |s| ensures s[i].votes < x.votes {
        if i < |init| { assert s[i] == init[i]; }
      }
      if SortedByVotes(s) {
        assert SortedByVotes(init);
      }
    }
  }

  lemma {:induction false} InsertByVotesPreservesOrder(s: seq<Song>, x: Song)
    requires SortedByVotes(s)
    ensures SortedByVotes(InsertByVotes(s, x))
  {
    InsertByVotesAt(s, x);
    var k := InsertPos(s, x);
    var r := InsertByVotes(s, x);
    forall i, j | 0 <= i < j < |r| ensures r[i].votes >= r[j].votes {
      var si := if i < k then i else if i == k then -1 else i - 1;
      var sj := if j < k then j else if j == k then -1 else j - 1;
      if si >= 0 { assert r[i] == s[si]; } else { assert r[i] == x; }
      if sj >= 0 { assert r[j] == s[sj]; } else { assert r[j] == x; }
    }
  }

  lemma {:induction false} SortByVotesIsSorted(q: seq<Song>)
    ensures SortedByVotes(SortByVotes(q))
  {
    if q != [] {
      SortByVotesIsSorted(q[..|q| - 1]);
      InsertByVotesPreservesOrder(SortByVotes(q[..|q| - 1]), q[|q| - 1]);
    }
  }

  lemma {:induction false} InsertByVotesMultiset(s: seq<Song>, x: Song)
    ensures multiset(InsertByVotes(s, x)) == multiset(s) + multiset{x}
    ensures |InsertByVotes(s, x)| == |s| + 1
  {
    if s != [] && s[|s| - 1].votes < x.votes {
      var init, last := s[..|s| - 1], s[|s| - 1];
      InsertByVotesMultiset(init, x);
      assert s == init + [last];
    }
  }

  lemma {:induction false} SortByVotesIsPermutation(q: seq<Song>)
    ensures multiset(SortByVotes(q)) == multiset(q)
    ensures |SortByVotes(q)| == |q|
  {
    if q != [] {
      var init, last := q[..|q| - 1], q[|q| - 1];
      var s := SortByVotes(init);
      SortByVotesIsPermutation(init);
      InsertByVotesMultiset(s, last);
      PermutationStep(q, init, last, s, SortByVotes(q));
    }
  }

  /** The multiset bookkeeping of one insertion step. */
  lemma PermutationStep(q: seq<Song>, init: seq<Song>, last: Song, s: seq<Song>, r: seq<Song>)
    requires q == init + [last]
    requires multiset(s) == multiset(init) && |s| == |init|
    requires multiset(r) == multiset(s) + multiset{last} && |r| == |s| + 1
    ensures multiset(r) == multiset(q) && |r| == |q|
  {
    assert multiset(q) == multiset(init) + multiset{last};
  }

  lemma WithScoreAppend(s: seq<Song>, y: Song, v: int)
    ensures WithScore(s + [y], v) == WithScore(s, v) + Tally(y, v)
  {
    assert (s + [y])[..|s|] == s;
  }

  lemma {:induction false} InsertByVotesWithScore(s: seq<Song>, x: Song, v: int)
    ensures WithScore(InsertByVotes(s, x), v) == WithScore(s, v) + Tally(x, v)
  {
    if s == [] || s[|s| - 1].votes >= x.votes {
      WithScoreAppend(s, x, v);
    } else {
      var init, last := s[..|s| - 1], s[|s| - 1];
      var t := InsertByVotes(init, x);
      assert Tally(last, v) == [] || Tally(x, v) == [];
      calc {
        WithScore(InsertByVotes(s, x), v);
        WithScore(t + [last], v);
        { WithScoreAppend(t, last, v); }
        WithScore(t, v) + Tally(last, v);
        { InsertByVotesWithScore(init, x, v); }
        WithScore(init, v) + Tally(x, v) + Tally(last, v);
        WithScore(init, v) + Tally(last, v) + Tally(x, v);
        WithScore(s, v) + Tally(x, v);
      }
    }
  }

  /** Stability: for every score, the entries with that score keep their order. */
  lemma {:induction false} SortByVotesIsStable(q: seq<Song>, v: int)
    ensures WithScore(SortByVotes(q), v) == WithScore(q, v)
  {
    if q != [] {
      var init, last := q[..|q| - 1], q[|q| - 1];
      var s := SortByVotes(init);
      calc {
        WithScore(SortByVotes(q), v);
        WithScore(InsertByVotes(s, last), v);
        { InsertByVotesWithScore(s, last, v); }
        WithScore(s, v) + Tally(last, v);
        { SortByVotesIsStable(init, v); }
        WithScore(init, v) + Tally(last, v);
        WithScore(q, v);
      }
    }
  }

  /** Sorting a queue that is already in order changes nothing. */
  lemma {:induction false} SortByVotesOfSorted(q: seq<Song>)
    requires SortedByVotes(q)
    ensures SortByVotes(q) == q
  {
    if q != [] {
      var init, last := q[..|q| - 1], q[|q| - 1];
      assert SortedByVotes(init);
      SortByVotesOfSorted(init);
      calc {
        SortByVotes(q);
        InsertByVotes(SortByVotes(init), last);
        InsertByVotes(init, last);
        { assert init == [] || init[|init| - 1].votes >= last.votes; }
        init + [last];
        q;
      }
    }
  }

  /** Appending an entry to a queue in order and re-sorting places it after
      every entry scoring at least as much and before every lower one. */
  lemma AppendThenSort(q: seq<Song>, x: Song)
    requires SortedByVotes(q)
    ensures var k := InsertPos(q, x);
      && SortByVotes(q + [x]) == q[..k] + [x] + q[k..]
      && (forall i :: 0 <= i < k ==> q[i].votes >= x.votes)
      && (forall i :: k <= i < |q| ==> q[i].votes < x.votes)
  {
    assert (q + [x])[..|q|] == q;
    SortByVotesOfSorted(q);
    InsertByVotesAt(q, x);
  }

  /** InsertByVotes places `x` at `j` when `j` is past every entry scoring at
      least `x` at the end of `pre` and the entry before `j` does not score less. */
  lemma {:induction false} InsertByVotesUnique(pre: seq<Song>, j: nat, x: Song)
    requires j <= |pre|
    requires j == 0 || pre[j - 1].votes >= x.votes
    requires forall k :: j <= k < |pre| ==> pre[k].votes < x.votes
    ensures InsertByVotes(pre, x) == pre[..j] + [x] + pre[j..]
  {
    if j == |pre| {
      assert pre[..j] == pre && pre[j..] == [];
    } else {
      var init, last := pre[..|pre| - 1], pre[|pre| - 1];
      assert init[..j] == pre[..j];
      InsertByVotesUnique(init, j, x);
      assert pre[j..] == init[j..] + [last];
    }
  }

  lemma Spliced(s: seq<Song>, pre: seq<Song>, j: nat, x: Song)
    requires j <= |pre| && |s| == |pre| + 1
    requires forall k :: 0 <= k < j ==> s[k] == pre[k]
    requires s[j] == x
    requires forall k :: j < k < |s| ==> s[k] == pre[k - 1]
    ensures s == pre[..j] + [x] + pre[j..]
  {
    var r := pre[..j] + [x] + pre[j..];
    forall k | 0 <= k < |s| ensures s[k] == r[k] {
      if k < j { assert r[k] == pre[k]; }
      else if k == j { assert r[k] == x; }
      else { assert r[k] == pre[k - 1]; }
    }
  }

  /** One step of the insertion sort: moves `a[i]` into the sorted prefix
      `a[..i]` by shifting the lower-scored entries one place right. */
  method InsertInPlace(a: array<Song>, i: nat)
    requires i < a.Length
    modifies a
    ensures a[..i + 1] == InsertByVotes(old(a[..i]), old(a[i]))
    ensures forall k :: i < k < a.Length ==> a[k] == old(a[k])
  {
    ghost var pre := a[..i];
    var x := a[i];
    var j := i;
    while j > 0 && a[j - 1].votes < x.votes
      invariant 0 <= j <= i
      invariant forall k :: 0 <= k < j ==> a[k] == pre[k]
      invariant forall k :: j < k <= i ==> a[k] == pre[k - 1]
      invariant forall k :: i < k < a.Length ==> a[k] == old(a[k])
      invariant forall k :: j <= k < i ==> pre[k].votes < x.votes
    {
      a[j] := a[j - 1];
      j := j - 1;
    }
    a[j] := x;
    InsertByVotesUnique(pre, j, x);
    Spliced(a[..i + 1], pre, j, x);
  }

  /** Python's in-place `list.sort` on the queue, as a stable insertion sort. */
  method SortQueueInPlace(a: array<Song>)
    modifies a
    ensures a[..] == SortByVotes(old(a[..]))
  {
    ghost var orig := a[..];
    var i := 0;
    while i < a.Length
      invariant 0 <= i <= a.Length
      invariant a[..i] == SortByVotes(orig[..i])
      invariant forall k :: i <= k < a.Length ==> a[k] == orig[k]
    {
      assert orig[..i + 1] == orig[..i] + [orig[i]];
      InsertInPlace(a, i);
      i := i + 1;
    }
    assert a[..] == a[..a.Length];
    assert orig == orig[..a.Length];
  }
}
