/** The leaderboard: ratings kept per user, the descending order of the
    ratings, and a user's 1-based position in it. */
module Ratings {
  import opened Common

  datatype Ranking = Ranking(userId: string, rating: int, wins: int, losses: int, updatedAt: int)

  /** One row of the leaderboard, `{ id, rating }`. */
  datatype Standing = Standing(id: string, rating: int)

  /** The rating a brand-new ranking starts from, also the stand-in for a
      missing one. */
  const DefaultRating: int := 1200

  /** Ratings never go below this floor after a battle. */
  const RatingFloor: int := 500

  /** One row per ranking, in the enumeration `order`: the user's id and the
      stored rating, with 1200 standing in for a missing (zero) one. */
  function Standings(order: seq<string>, rankings: map<string, Ranking>): (r: seq<Standing>)
    requires forall i :: 0 <= i < |order| ==> order[i] in rankings
    ensures |r| == |order|
    ensures forall i :: 0 <= i < |r| ==> r[i].id == order[i]
    ensures forall i :: 0 <= i < |r| ==> r[i].rating == OrInt(rankings[order[i]].rating, DefaultRating)
  {
    if order == [] then []
    else [Standing(order[0], OrInt(rankings[order[0]].rating, DefaultRating))]
         + Standings(order[1..], rankings)
  }

  predicate SortedByRating(s: seq<Standing>) {
    forall i, j :: 0 <= i < j < |s| ==> s[i].rating >= s[j].rating
  }

  /** Places `x` after every entry rated at least as high as it. */
  function InsertByRating(sorted: seq<Standing>, x: Standing): seq<Standing> {
    if sorted == [] then [x]
    else if sorted[0].rating >= x.rating then [sorted[0]] + InsertByRating(sorted[1..], x)
    else [x] + sorted
  }

  /** The sort by descending rating: an insertion sort that puts each
      entry after the earlier ones of equal rating. */
  function SortByRating(s: seq<Standing>): seq<Standing>
    decreases |s|
  {
    if s == [] then [] else InsertByRating(SortByRating(s[..|s| - 1]), s[|s| - 1])
  }

  lemma ConsSorted(h: Standing, t: seq<Standing>)
    requires SortedByRating(t)
    requires forall k :: 0 <= k < |t| ==> h.rating >= t[k].rating
    ensures SortedByRating([h] + t)
  {
    var r := [h] + t;
    forall i, j | 0 <= i < j < |r| ensures r[i].rating >= r[j].rating {
      if i > 0 {
        assert r[i] == t[i - 1] && r[j] == t[j - 1];
      } else {
        assert r[j] == t[j - 1];
      }
    }
  }

  /** Inserting keeps every entry, and adds `x`. */
  lemma {:induction false} InsertKeeps(sorted: seq<Standing>, x: Standing)
    ensures multiset(InsertByRating(sorted, x)) == multiset(sorted) + multiset{x}
    decreases |sorted|
  {
    if sorted != [] && sorted[0].rating >= x.rating {
      InsertKeeps(sorted[1..], x);
      assert sorted == [sorted[0]] + sorted[1..];
    }
  }

  /** A bound on every rating survives an insertion that respects it. */
  lemma {:induction false} InsertBelow(sorted: seq<Standing>, x: Standing, bound: int)
    requires forall k :: 0 <= k < |sorted| ==> sorted[k].rating <= bound
    requires x.rating <= bound
    ensures forall k :: 0 <= k < |InsertByRating(sorted, x)| ==> InsertByRating(sorted, x)[k].rating <= bound
    decreases |sorted|
  {
    if sorted != [] && sorted[0].rating >= x.rating {
      InsertBelow(sorted[1..], x, bound);
      var rest := InsertByRating(sorted[1..], x);
      assert InsertByRating(sorted, x) == [sorted[0]] + rest;
    }
  }

  lemma {:induction false} InsertFacts(sorted: seq<Standing>, x: Standing)
    requires SortedByRating(sorted)
    ensures SortedByRating(InsertByRating(sorted, x))
    ensures multiset(InsertByRating(sorted, x)) == multiset(sorted) + multiset{x}
    decreases |sorted|
  {
    InsertKeeps(sorted, x);
    if sorted == [] {
    } else if sorted[0].rating >= x.rating {
      var tail := sorted[1..];
      assert SortedByRating(tail) by {
        forall i, j | 0 <= i < j < |tail| ensures tail[i].rating >= tail[j].rating {
          assert tail[i] == sorted[i + 1] && tail[j] == sorted[j + 1];
        }
      }
      InsertFacts(tail, x);
      assert forall k :: 0 <= k < |tail| ==> tail[k].rating <= sorted[0].rating by {
        forall k | 0 <= k < |tail| ensures tail[k].rating <= sorted[0].rating {
          assert tail[k] == sorted[k + 1];
        }
      }
      InsertBelow(tail, x, sorted[0].rating);
      ConsSorted(sorted[0], InsertByRating(tail, x));
    } else {
      forall k | 0 <= k < |sorted| ensures x.rating >= sorted[k].rating {
        if k > 0 {
          assert sorted[0].rating >= sorted[k].rating;
        }
      }
      ConsSorted(x, sorted);
    }
  }

  /** The sorted leaderboard is ordered by descending rating and holds
      exactly the entries it was given. */
  lemma {:induction false} SortFacts(s: seq<Standing>)
    ensures SortedByRating(SortByRating(s))
    ensures multiset(SortByRating(s)) == multiset(s)
    decreases |s|
  {
    if s != [] {
      var init := s[..|s| - 1];
      SortFacts(init);
      InsertFacts(SortByRating(init), s[|s| - 1]);
      assert s == init + [s[|s| - 1]];
    }
  }

  /** The loop of `updateRankingPosition` over the sorted entries: the 1-based
      index of the first entry of `userId`, or one past the end. */
  method RankingPosition(entries: seq<Standing>, userId: string) returns (pos: nat)
    ensures 1 <= pos <= |entries| + 1
    ensures pos <= |entries| ==> entries[pos - 1].id == userId
    ensures forall i :: 0 <= i < pos - 1 ==> entries[i].id != userId
  {
    for i := 0 to |entries|
      invariant forall k :: 0 <= k < i ==> entries[k].id != userId
    {
      if entries[i].id == userId {
        return i + 1;
      }
    }
    return |entries| + 1;
  }

  /** The leaderboard as `updateRankingPosition` builds it. */
  function Leaderboard(order: seq<string>, rankings: map<string, Ranking>): seq<Standing>
    requires forall i :: 0 <= i < |order| ==> order[i] in rankings
  {
    SortByRating(Standings(order, rankings))
  }

  /** The leaderboard is ordered by rating, and a user appears in it exactly
      when the enumeration holds the user. So the position is one past the end
      exactly for an unranked user, and everyone ahead of a ranked user is
      rated at least as high. */
  lemma LeaderboardFacts(order: seq<string>, rankings: map<string, Ranking>, userId: string)
    requires forall i :: 0 <= i < |order| ==> order[i] in rankings
    ensures SortedByRating(Leaderboard(order, rankings))
    ensures |Leaderboard(order, rankings)| == |order|
    ensures (exists i :: 0 <= i < |Leaderboard(order, rankings)| && Leaderboard(order, rankings)[i].id == userId)
            <==> userId in order
  {
    var st := Standings(order, rankings);
    var lb := Leaderboard(order, rankings);
    SortFacts(st);
    assert |lb| == |multiset(lb)| == |multiset(st)| == |st|;
    if userId in order {
      var i :| 0 <= i < |order| && order[i] == userId;
      assert st[i] in multiset(lb);
      var j :| 0 <= j < |lb| && lb[j] == st[i];
      assert lb[j].id == userId;
    }
    if j :| 0 <= j < |lb| && lb[j].id == userId {
      assert lb[j] in multiset(st);
      var i :| 0 <= i < |st| && st[i] == lb[j];
      assert order[i] == userId;
    }
  }

  /** The rating after one battle: +25 for a win, -15 for a loss, floored at 500. */
  function BattleRating(rating: int, win: bool): (r: int)
    ensures r >= RatingFloor
    ensures win ==> r == Max(rating + 25, RatingFloor)
    ensures !win ==> r == Max(rating - 15, RatingFloor)
    ensures win && rating >= RatingFloor - 25 ==> r == rating + 25
    ensures !win && rating - 15 >= RatingFloor ==> r == rating - 15
  {
    Max(RatingFloor, rating + (if win then 25 else -15))
  }
}
