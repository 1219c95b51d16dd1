/** The diversity re-ranker: one forward pass over the score-sorted posts that
    keeps, per author, how many of their posts it has already passed, and
    multiplies each post's score by 1 / (1 + that count). The pass is a left
    fold whose accumulator is the per-author count map. */
module Diversity {
  import opened Records
  import opened Scorer
  import opened Sorting

  function AuthorOf(sp: ScoredPost): int {
    sp.post.userId
  }

  /** `authorSeenCount.get(authorId) || 0`. */
  function TimesSeen(seen: map<int, nat>, author: int): nat {
    if author in seen then seen[author] else 0
  }

  /** The harmonic diversity factor 1 / (1 + timesSeen). */
  function DiversityFactor(timesSeen: nat): (f: real)
    ensures 0.0 < f <= 1.0
    ensures f == 1.0 <==> timesSeen == 0
  {
    1.0 / (1 + timesSeen) as real
  }

  /** The factor is the reciprocal of 1 + timesSeen. */
  lemma DiversityFactorReciprocal(timesSeen: nat)
    ensures DiversityFactor(timesSeen) * (1 + timesSeen) as real == 1.0
  {
  }

  lemma CancelReciprocal(x: real, f: real, d: real)
    requires f * d == 1.0
    ensures x * f * d == x
  {
    assert x * f * d == x * (f * d);
  }

  /** A score scaled by the diversity factor. */
  function Adjust(score: real, timesSeen: nat): real {
    score * DiversityFactor(timesSeen)
  }

  /** Adjusting divides the score by 1 + timesSeen: a non-negative score is
      never raised, and the score of an author not seen before is kept. */
  lemma AdjustDivides(score: real, timesSeen: nat)
    ensures Adjust(score, timesSeen) * (1 + timesSeen) as real == score
    ensures 0.0 <= score ==> 0.0 <= Adjust(score, timesSeen) <= score
    ensures timesSeen == 0 ==> Adjust(score, timesSeen) == score
  {
    DiversityFactorReciprocal(timesSeen);
    CancelReciprocal(score, DiversityFactor(timesSeen), (1 + timesSeen) as real);
    if 0.0 <= score {
      MulMonotone(DiversityFactor(timesSeen), 1.0, score);
    }
  }

  /** The number of posts by `author` in `s`: the reference count the fold's
      accumulator is compared with. */
  function CountBy(s: seq<ScoredPost>, author: int): nat {
    if s == [] then 0
    else (if AuthorOf(s[0]) == author then 1 else 0) + CountBy(s[1..], author)
  }

  /** The count is zero exactly when no post in `s` is by `author`. */
  lemma {:induction false} CountByZero(s: seq<ScoredPost>, author: int)
    ensures CountBy(s, author) == 0 <==> forall j :: 0 <= j < |s| ==> AuthorOf(s[j]) != author
    decreases |s|
  {
    if s != [] {
      CountByZero(s[1..], author);
      assert forall j :: 1 <= j < |s| ==> s[1..][j - 1] == s[j];
    }
  }

  /** The count map after passing one more post by `author`. */
  function Bump(seen: map<int, nat>, author: int): (r: map<int, nat>)
    ensures forall b :: TimesSeen(r, b) == TimesSeen(seen, b) + (if b == author then 1 else 0)
  {
    seen[author := TimesSeen(seen, author) + 1]
  }

  /** The pass, continued from the count map `seen`: every post is rescaled by
      the factor for its author's current count, and the author's count then
      goes up by one. */
  function DiversifyFrom(seen: map<int, nat>, s: seq<ScoredPost>): (r: seq<ScoredPost>)
    ensures |r| == |s|
    decreases |s|
  {
    if s == [] then []
    else
      var a := AuthorOf(s[0]);
      [s[0].(score := Adjust(s[0].score, TimesSeen(seen, a)))] + DiversifyFrom(Bump(seen, a), s[1..])
  }

  /** Past the head, the pass continues on the tail from the bumped map. */
  lemma DiversifyFromTail(seen: map<int, nat>, s: seq<ScoredPost>, i: nat)
    requires 0 < i < |s|
    ensures DiversifyFrom(seen, s)[i] == DiversifyFrom(Bump(seen, AuthorOf(s[0])), s[1..])[i - 1]
  {
    var a := AuthorOf(s[0]);
    var head := s[0].(score := Adjust(s[0].score, TimesSeen(seen, a)));
    var tail := DiversifyFrom(Bump(seen, a), s[1..]);
    assert s != [];
    IndexPastHead(head, tail, i);
  }

  /** Every post keeps its place: the pass only rescales. */
  lemma {:induction false} DiversifyFromKeepsPosts(seen: map<int, nat>, s: seq<ScoredPost>)
    ensures forall i :: 0 <= i < |s| ==> DiversifyFrom(seen, s)[i].post == s[i].post
    decreases |s|
  {
    if s != [] {
      var seen' := Bump(seen, AuthorOf(s[0]));
      DiversifyFromKeepsPosts(seen', s[1..]);
      forall i | 0 < i < |s|
        ensures DiversifyFrom(seen, s)[i].post == s[i].post
      {
        DiversifyFromTail(seen, s, i);
        assert s[1..][i - 1] == s[i];
      }
    }
  }

  /** The post at position i is scaled by 1 / (1 + n), where n is its author's
      count in `seen` plus the number of the author's posts before position i:
      the fold's map agrees with the reference count `CountBy`. */
  lemma {:induction false} DiversifyFromScore(seen: map<int, nat>, s: seq<ScoredPost>, i: nat)
    requires i < |s|
    ensures DiversifyFrom(seen, s)[i].score
         == Adjust(s[i].score, TimesSeen(seen, AuthorOf(s[i])) + CountBy(s[..i], AuthorOf(s[i])))
    decreases |s|
  {
    if i == 0 {
      assert s[..0] == [];
    } else {
      DiversifyFromScore(Bump(seen, AuthorOf(s[0])), s[1..], i - 1);
      assert s[1..][i-1] == s[i];
      CountStep(seen, s, i);
      DiversifyFromTail(seen, s, i);
    }
  }

  lemma IndexPastHead<T>(head: T, tail: seq<T>, i: nat)
    requires 0 < i <= |tail|
    ensures ([head] + tail)[i] == tail[i - 1]
  {
  }

  /** One step of the fold: counting from the updated map over the rest of
      the prefix gives the same number as counting from the old map over the
      whole prefix. */
  lemma CountStep(seen: map<int, nat>, s: seq<ScoredPost>, i: nat)
    requires 0 < i < |s|
    ensures TimesSeen(Bump(seen, AuthorOf(s[0])), AuthorOf(s[i]))
            + CountBy(s[1..][..i-1], AuthorOf(s[i]))
         == TimesSeen(seen, AuthorOf(s[i])) + CountBy(s[..i], AuthorOf(s[i]))
  {
    assert s[..i][1..] == s[1..][..i-1];
    assert s[..i][0] == s[0];
  }

  /** The diversity pass of `rankFeed`: the count map starts empty on every
      call, so the post at position i is scaled by 1 / (1 + n) where n is the
      number of earlier posts by the same author. */
  function Diversify(s: seq<ScoredPost>): (r: seq<ScoredPost>)
    ensures |r| == |s|
    ensures Posts(r) == Posts(s)
  {
    DiversifyFromKeepsPosts(map[], s);
    DiversifyFrom(map[], s)
  }

  lemma DiversifyScore(s: seq<ScoredPost>, i: nat)
    requires i < |s|
    ensures Diversify(s)[i].score == Adjust(s[i].score, CountBy(s[..i], AuthorOf(s[i])))
  {
    DiversifyFromScore(map[], s, i);
  }

  /** The k-th post of an author (counting from 0 in the pass order) has its
      score divided by exactly k + 1: the first is unchanged, the second halved,
      the third divided by three. */
  lemma DiversityIsHarmonic(s: seq<ScoredPost>, i: nat)
    requires i < |s|
    ensures Diversify(s)[i].score * (1 + CountBy(s[..i], AuthorOf(s[i]))) as real == s[i].score
    ensures CountBy(s[..i], AuthorOf(s[i])) == 0 ==> Diversify(s)[i].score == s[i].score
    ensures CountBy(s[..i], AuthorOf(s[i])) == 1 ==> Diversify(s)[i].score * 2.0 == s[i].score
    ensures CountBy(s[..i], AuthorOf(s[i])) == 2 ==> Diversify(s)[i].score * 3.0 == s[i].score
  {
    DiversifyScore(s, i);
    AdjustDivides(s[i].score, CountBy(s[..i], AuthorOf(s[i])));
  }

  /** With non-negative scores the pass never raises a score, and for a
      positive score it lowers it exactly when the author was seen before. */
  lemma DiversityNeverRaises(s: seq<ScoredPost>, i: nat)
    requires i < |s|
    requires 0.0 <= s[i].score
    ensures Diversify(s)[i].score <= s[i].score
    ensures 0.0 < s[i].score ==>
      (Diversify(s)[i].score < s[i].score <==> CountBy(s[..i], AuthorOf(s[i])) > 0)
    ensures 0.0 < s[i].score ==>
      (Diversify(s)[i].score < s[i].score <==> exists j :: 0 <= j < i && AuthorOf(s[j]) == AuthorOf(s[i]))
  {
    var k := CountBy(s[..i], AuthorOf(s[i]));
    var f := DiversityFactor(k);
    DiversifyScore(s, i);
    CountByZero(s[..i], AuthorOf(s[i]));
    assert forall j :: 0 <= j < i ==> s[..i][j] == s[j];
    assert Diversify(s)[i].score == s[i].score * f;
    MulMonotone(f, 1.0, s[i].score);
    if 0.0 < s[i].score && k > 0 {
      MulStrict(f, 1.0, s[i].score);
      assert Diversify(s)[i].score < s[i].score;
    }
  }
}
