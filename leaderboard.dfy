/**
 * The leaderboard of best distances: `saveLeaderboard` pushes a score onto
 * the stored array, sorts it in place from highest to lowest, and keeps the
 * first five.
 */
module Leaderboard {
  import opened Arith

  const BoardSize := 5

  /** Sorted from highest to lowest. */
  ghost predicate SortedDesc(s: seq<int>)
  {
    forall i, j :: 0 <= i < j < |s| ==> s[i] >= s[j]
  }

  /** A stored board as `saveLeaderboard` leaves it: at most five scores, highest first. */
  ghost predicate ValidBoard(s: seq<int>)
  {
    |s| <= BoardSize && SortedDesc(s)
  }

  /**
   * `board` is what pushing `score` onto `data` and keeping five leaves:
   * `min(5, n + 1)` scores, highest first, drawn from the old scores and
   * `score`, with nothing left out higher than anything kept.
   */
  ghost predicate TopScores(board: seq<int>, data: seq<int>, score: int)
  {
    |board| == Min(BoardSize, |data| + 1) &&
    SortedDesc(board) &&
    multiset(board) <= multiset(data + [score]) &&
    (forall x, y :: x in multiset(data + [score]) - multiset(board) && y in board ==> x <= y)
  }

  /** Exchanges two entries of the array. */
  method Swap(a: array<int>, i: int, j: int)
    requires 0 <= i < a.Length && 0 <= j < a.Length
    modifies a
    ensures a[..] == old(a[..])[i := old(a[j])][j := old(a[i])]
    ensures multiset(a[..]) == old(multiset(a[..]))
  {
    a[i], a[j] := a[j], a[i];
  }

  /** `data.sort((a, b) => b - a)`: sorts the array in place, highest first. */
  method SortDescending(a: array<int>)
    modifies a
    ensures SortedDesc(a[..])
    ensures multiset(a[..]) == old(multiset(a[..]))
  {
    var i := 0;
    while i < a.Length
      invariant 0 <= i <= a.Length
      invariant SortedDesc(a[..i])
      invariant multiset(a[..]) == old(multiset(a[..]))
    {
      // Move a[i] left past every smaller entry.
      var j := i;
      while 0 < j && a[j - 1] < a[j]
        invariant 0 <= j <= i
        invariant forall p, q :: 0 <= p < q <= i && p != j && q != j ==> a[p] >= a[q]
        invariant forall q :: j < q <= i ==> a[j] > a[q]
        invariant multiset(a[..]) == old(multiset(a[..]))
      {
        Swap(a, j - 1, j);
        j := j - 1;
      }
      i := i + 1;
    }
  }

  /** Keeping a prefix of a sorted board keeps the largest scores: nothing dropped beats anything kept. */
  lemma PrefixKeepsLargest(s: seq<int>, k: nat)
    requires SortedDesc(s) && k <= |s|
    ensures multiset(s[..k]) <= multiset(s)
    ensures forall x, y :: x in multiset(s) - multiset(s[..k]) && y in s[..k] ==> x <= y
  {
    assert s == s[..k] + s[k..];
    assert multiset(s) - multiset(s[..k]) == multiset(s[k..]);
    forall x, y | x in multiset(s[k..]) && y in s[..k]
      ensures x <= y
    {
      assert x in s[k..];
      var p :| 0 <= p < k && s[p] == y;
      var q :| k <= q < |s| && s[q] == x;
    }
  }

  /** Two sorted boards holding the same scores are the same board. */
  lemma {:induction false} SortedUnique(a: seq<int>, b: seq<int>)
    requires SortedDesc(a) && SortedDesc(b) && multiset(a) == multiset(b)
    ensures a == b
    decreases |a|
  {
    assert |a| == |multiset(a)| == |multiset(b)| == |b|;
    if a != [] {
      assert a[0] in multiset(b) && b[0] in multiset(a);
      assert b[0] in a && a[0] in b;
      assert a[0] == b[0];
      assert a == [a[0]] + a[1..] && b == [b[0]] + b[1..];
      assert multiset(a) == multiset{a[0]} + multiset(a[1..]);
      assert multiset(b) == multiset{b[0]} + multiset(b[1..]);
      assert multiset(a[1..]) == multiset(a) - multiset{a[0]};
      assert multiset(b[1..]) == multiset(b) - multiset{b[0]};
      SortedUnique(a[1..], b[1..]);
    }
  }

  /** Reference definition: inserting a score into a board sorted highest first. */
  function Insert(board: seq<int>, score: int): (r: seq<int>)
    ensures multiset(r) == multiset(board + [score])
    ensures |r| == |board| + 1
  {
    if board == [] then [score]
    else if board[0] < score then [score] + board
    else
      assert board + [score] == [board[0]] + (board[1..] + [score]);
      [board[0]] + Insert(board[1..], score)
  }

  /** Inserting into a sorted board keeps it sorted. */
  lemma {:induction false} InsertSorted(board: seq<int>, score: int)
    requires SortedDesc(board)
    ensures SortedDesc(Insert(board, score))
  {
    if board != [] && board[0] >= score {
      var rest := board[1..];
      InsertSorted(rest, score);
      var r := Insert(rest, score);
      forall y | y in multiset(r) ensures board[0] >= y {
        assert y in multiset(rest + [score]);
        assert y in rest + [score];
      }
      forall j | 0 <= j < |r| ensures board[0] >= r[j] {
        assert r[j] in multiset(r);
      }
    }
  }

  /** The first `min(5, n)` entries of the sorted scores are the new board the source stores. */
  lemma SortedTop(s: seq<int>, data: seq<int>, score: int)
    requires SortedDesc(s) && multiset(s) == multiset(data + [score])
    ensures var board := s[..Min(BoardSize, |s|)];
      TopScores(board, data, score) &&
      (SortedDesc(data) ==> board == Insert(data, score)[..|board|])
  {
    assert |s| == |multiset(s)| == |data + [score]|;
    PrefixKeepsLargest(s, Min(BoardSize, |s|));
    if SortedDesc(data) {
      InsertSorted(data, score);
      SortedUnique(s, Insert(data, score));
    }
  }

  /**
   * `saveLeaderboard` on the stored scores (after `JSON.parse`): copy them
   * into an array, push `score`, sort in place, keep the first five. When
   * the stored board is already sorted, the result is the reference
   * insertion truncated to five.
   */
  method Push(data: seq<int>, score: int) returns (board: seq<int>)
    ensures TopScores(board, data, score)
    ensures SortedDesc(data) ==> board == Insert(data, score)[..|board|]
  {
    var a := new int[|data| + 1];
    for k := 0 to |data|
      invariant a[..k] == data[..k]
    {
      a[k] := data[k];
    }
    a[|data|] := score;
    assert a[..] == data + [score];
    SortDescending(a);
    ghost var sorted := a[..];
    board := a[..Min(BoardSize, a.Length)];
    assert board == sorted[..Min(BoardSize, |sorted|)];
    SortedTop(sorted, data, score);
  }
}
