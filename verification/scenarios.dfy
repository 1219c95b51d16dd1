/** Two worked rankings, computed from the formulas: which of two posts a
    viewer sees first. They pin the weights and thresholds against each other
    without fixing `Math.exp`, `Math.log10` or the random draws. */
module Scenarios {
  import opened Wrappers
  import opened Records
  import opened Transcendental
  import opened Scorer
  import opened Sorting
  import opened Diversity
  import opened Ranking

  /** A candidate list already in non-increasing order with distinct authors
      comes through both sorts and the diversity pass unchanged. */
  lemma PipelineOfOrderedTwo(sp1: ScoredPost, sp2: ScoredPost)
    requires AuthorOf(sp1) != AuthorOf(sp2)
    requires sp1.score >= sp2.score
    ensures SortByScoreDesc([sp1, sp2]) == [sp1, sp2]
    ensures SortByScoreDesc(Diversify([sp1, sp2])) == [sp1, sp2]
  {
    assert [sp1, sp2][1..] == [sp2];
    DiversifyScore([sp1, sp2], 0);
    DiversifyScore([sp1, sp2], 1);
    assert [sp1, sp2][..1] == [sp1];
    assert [sp1, sp2][..0] == [];
    var d := Diversify([sp1, sp2]);
    assert CountBy([sp1], AuthorOf(sp2)) == 0;
    assert DiversityFactor(0) == 1.0;
    assert d[0].score == sp1.score && d[1].score == sp2.score;
    assert d[0].post == sp1.post && d[1].post == sp2.post;
    assert d == [sp1, sp2];
  }

  /** Two candidates by different authors end up ordered by score. */
  lemma PipelineOfTwo(sp1: ScoredPost, sp2: ScoredPost)
    requires AuthorOf(sp1) != AuthorOf(sp2)
    ensures sp1.score >= sp2.score ==> SortByScoreDesc(Diversify(SortByScoreDesc([sp1, sp2]))) == [sp1, sp2]
    ensures sp1.score < sp2.score ==> SortByScoreDesc(Diversify(SortByScoreDesc([sp1, sp2]))) == [sp2, sp1]
  {
    if sp1.score >= sp2.score {
      PipelineOfOrderedTwo(sp1, sp2);
    } else {
      assert [sp1, sp2][1..] == [sp2];
      assert SortByScoreDesc([sp1, sp2]) == [sp2, sp1];
      PipelineOfOrderedTwo(sp2, sp1);
    }
  }

  /** A directory of two users with distinct ids. */
  lemma TwoUserMap(u1: User, u2: User)
    requires u1.id != u2.id
    ensures UserMap([u1, u2]) == map[u1.id := u1, u2.id := u2]
  {
    assert [u1, u2][..1] == [u1];
    assert [u1][..0] == [];
  }

  lemma PostsOfTwo(sp1: ScoredPost, sp2: ScoredPost)
    ensures Posts([sp1, sp2]) == [sp1.post, sp2.post]
  {
  }

  /** Two posts whose authors are both in the directory are scored in order. */
  lemma ScoreAllOfTwo(m: MathLib, now: int, p1: Post, p2: Post, viewer: Option<User>,
                      dir: map<int, User>, d1: real, d2: real)
    requires Sound(m)
    requires IsDraw(d1) && IsDraw(d2)
    requires p1.userId in dir && p2.userId in dir
    ensures ScoreAll(m, now, [p1, p2], viewer, dir, [d1, d2])
         == [ScoredPost(p1, PostScore(m, now, p1, viewer, dir[p1.userId], d1)),
             ScoredPost(p2, PostScore(m, now, p2, viewer, dir[p2.userId], d2))]
  {
    assert [p1, p2][1..] == [p2];
    assert [d1, d2][1..] == [d2];
  }

  /** Two posts by the two users of a two-user directory, one each: the feed
      lists them by score, the first input first on a tie. */
  lemma RankFeedOfTwo(m: MathLib, now: int, p1: Post, p2: Post, viewer: Option<User>,
                      u1: User, u2: User, d1: real, d2: real)
    requires Sound(m)
    requires IsDraw(d1) && IsDraw(d2)
    requires u1.id != u2.id
    requires p1.userId == u1.id && p2.userId == u2.id
    ensures PostScore(m, now, p1, viewer, u1, d1) >= PostScore(m, now, p2, viewer, u2, d2)
        ==> RankFeed(m, now, [p1, p2], viewer, [u1, u2], [d1, d2]) == [p1, p2]
    ensures PostScore(m, now, p1, viewer, u1, d1) < PostScore(m, now, p2, viewer, u2, d2)
        ==> RankFeed(m, now, [p1, p2], viewer, [u1, u2], [d1, d2]) == [p2, p1]
  {
    var users := [u1, u2];
    var dir := UserMap(users);
    TwoUserMap(u1, u2);
    assert dir[p1.userId] == u1 && dir[p2.userId] == u2;
    ScoreAllOfTwo(m, now, p1, p2, viewer, dir, d1, d2);
    var sp1 := ScoredPost(p1, PostScore(m, now, p1, viewer, u1, d1));
    var sp2 := ScoredPost(p2, PostScore(m, now, p2, viewer, u2, d2));
    var scored := ScoreAll(m, now, [p1, p2], viewer, dir, [d1, d2]);
    assert scored == [sp1, sp2];
    PipelineOfTwo(sp1, sp2);
    var ranked := RankScored(m, now, [p1, p2], viewer, users, [d1, d2]);
    assert ranked == SortByScoreDesc(Diversify(SortByScoreDesc(scored)));
    PostsOfTwo(sp1, sp2);
    PostsOfTwo(sp2, sp1);
    assert RankFeed(m, now, [p1, p2], viewer, users, [d1, d2]) == Posts(ranked);
  }

  // The new-creator scenario: author A (one follower, joined 40 days ago)
  // posted P1 with 100 reactions; author B (no followers, joined 2 days ago)
  // posted P2 with 5 reactions; both posts are 2 hours old; no viewer.
  function AuthorA(now: int): User { User(1, [3], [], Some(now - 40 * MsPerDay), None) }
  function AuthorB(now: int): User { User(2, [], [], Some(now - 2 * MsPerDay), None) }
  function PostP1(now: int): Post { Post(1, Some(now - 2 * MsPerHour), 100, 0, 0, None, None) }
  function PostP2(now: int): Post { Post(2, Some(now - 2 * MsPerHour), 5, 0, 0, None, None) }

  /** P1's raw engagement is exactly 50, so it is not viral, but it is
      fast-moving (x1.4): its base score is at least 107, A gets no boost and
      A's dampener 1 / log10(11) is at least 1/2. */
  lemma BreakdownOfP1(m: MathLib, now: int, d: real)
    requires Sound(m)
    requires IsDraw(d)
    ensures var r := CalculatePostScore(m, now, PostP1(now), None, AuthorA(now), d);
      r.baseScore >= 107.0 && r.newUser == 1.0 && r.followerInfluence >= 0.5
  {
    var r := CalculatePostScore(m, now, PostP1(now), None, AuthorA(now), d);
    assert RawEngagement(PostP1(now)) == 50.0;
    assert HoursSinceCreation(now, PostP1(now).createdAt) == 2.0;
    assert r.viral == 1.0 && r.velocity == 1.4;
    assert r.engagement == 70.0;
    assert DaysOnPlatform(now, AuthorA(now).createdAt) == 40.0;
  }

  /** P2 has raw engagement 2.5 and no multiplier: its base score is at most
      6.75; B gets the new-creator boost and no dampening. */
  lemma BreakdownOfP2(m: MathLib, now: int, d: real)
    requires Sound(m)
    requires IsDraw(d)
    ensures var r := CalculatePostScore(m, now, PostP2(now), None, AuthorB(now), d);
      0.0 < r.baseScore <= 6.75 && r.newUser == 1.5 && r.followerInfluence == 1.0
  {
    var r := CalculatePostScore(m, now, PostP2(now), None, AuthorB(now), d);
    assert RawEngagement(PostP2(now)) == 2.5;
    assert r.engagement == 2.5;
    assert DaysOnPlatform(now, AuthorB(now).createdAt) == 2.0;
  }

  /** The final-score comparison behind the new-creator scenario. */
  lemma NewCreatorGap(b1: real, k1: real, b2: real, d1: real, d2: real)
    requires 107.0 <= b1
    requires 0.5 <= k1 <= 1.0
    requires 0.0 < b2 <= 6.75
    requires IsDraw(d1) && IsDraw(d2)
    ensures FinalScore(b1, 1.0, k1, d1) > FinalScore(b2, 1.5, 1.0, d2)
  {
    MulMonotone(107.0, b1, k1);
    MulMonotone(0.5, k1, 107.0);
    assert b1 * 1.0 * k1 >= 53.5;
    assert b2 * 1.5 * 1.0 <= 10.125;
  }

  /** With no viewer, P1 ranks above P2 whatever the draws: B's boost and
      dampener advantage do not make up P1's engagement lead. */
  lemma NewCreatorScenario(m: MathLib, now: int, d1: real, d2: real)
    requires Sound(m)
    requires IsDraw(d1) && IsDraw(d2)
    ensures RankFeed(m, now, [PostP1(now), PostP2(now)], None, [AuthorA(now), AuthorB(now)], [d1, d2])
         == [PostP1(now), PostP2(now)]
  {
    var r1 := CalculatePostScore(m, now, PostP1(now), None, AuthorA(now), d1);
    var r2 := CalculatePostScore(m, now, PostP2(now), None, AuthorB(now), d2);
    BreakdownOfP1(m, now, d1);
    BreakdownOfP2(m, now, d2);
    NewCreatorGap(r1.baseScore, r1.followerInfluence, r2.baseScore, d1, d2);
    RankFeedOfTwo(m, now, PostP1(now), PostP2(now), None, AuthorA(now), AuthorB(now), d1, d2);
  }

  // The mutual-follow scenario: viewer V follows author C and C's followers
  // include V; C posted P3 with 1 reaction. Author D, whom V does not follow,
  // posted P4 with 20 reactions. Both posts are 10 hours old; both authors
  // have one follower and joined 100 days ago.
  function ViewerV(): User { User(10, [11], [11], None, None) }
  function AuthorC(now: int): User { User(11, [10], [10], Some(now - 100 * MsPerDay), None) }
  function AuthorD(now: int): User { User(12, [13], [], Some(now - 100 * MsPerDay), None) }
  function PostP3(now: int): Post { Post(11, Some(now - 10 * MsPerHour), 1, 0, 0, None, None) }
  function PostP4(now: int): Post { Post(12, Some(now - 10 * MsPerHour), 20, 0, 0, None, None) }

  /** P3 gets the mutual-follow affinity 2, yet its base score is at most 5.75. */
  lemma BreakdownOfP3(m: MathLib, now: int, d: real)
    requires Sound(m)
    requires IsDraw(d)
    ensures var r := CalculatePostScore(m, now, PostP3(now), Some(ViewerV()), AuthorC(now), d);
      0.0 < r.baseScore <= 5.75 && r.newUser == 1.0 && r.followerInfluence == FollowerInfluence(m, 1)
  {
    var r := CalculatePostScore(m, now, PostP3(now), Some(ViewerV()), AuthorC(now), d);
    assert RawEngagement(PostP3(now)) == 0.5;
    assert r.engagement == 0.5;
    assert r.affinity == 2.0;
    assert DaysOnPlatform(now, AuthorC(now).createdAt) == 100.0;
  }

  /** P4 has raw engagement 10, is neither viral nor fast-moving and has
      neutral affinity: its base score is at least 17. */
  lemma BreakdownOfP4(m: MathLib, now: int, d: real)
    requires Sound(m)
    requires IsDraw(d)
    ensures var r := CalculatePostScore(m, now, PostP4(now), Some(ViewerV()), AuthorD(now), d);
      17.0 <= r.baseScore && r.newUser == 1.0 && r.followerInfluence == FollowerInfluence(m, 1)
  {
    var r := CalculatePostScore(m, now, PostP4(now), Some(ViewerV()), AuthorD(now), d);
    assert RawEngagement(PostP4(now)) == 10.0;
    assert HoursSinceCreation(now, PostP4(now).createdAt) == 10.0;
    assert r.engagement == 10.0;
    assert r.affinity == 1.0;
    assert DaysOnPlatform(now, AuthorD(now).createdAt) == 100.0;
  }

  /** The final-score comparison behind the mutual-follow scenario. */
  lemma MutualFollowGap(b3: real, b4: real, k: real, d3: real, d4: real)
    requires 0.0 < b3 <= 5.75
    requires 17.0 <= b4
    requires 0.5 <= k <= 1.0
    requires IsDraw(d3) && IsDraw(d4)
    ensures FinalScore(b3, 1.0, k, d3) < FinalScore(b4, 1.0, k, d4)
  {
    Unboosted(b3, k, d3);
    Unboosted(b4, k, d4);
    ScaledGap(b3, b4, k, d3, d4);
  }

  /** The unjittered part of the second value exceeds the first's by more
      than the jitter range. */
  lemma ScaledGap(b3: real, b4: real, k: real, d3: real, d4: real)
    requires 0.0 < b3 <= 5.75
    requires 17.0 <= b4
    requires 0.5 <= k <= 1.0
    requires IsDraw(d3) && IsDraw(d4)
    ensures b3 * k + 0.1 * d3 < b4 * k + 0.1 * d4
  {
    ProductGap(b3, b4, k);
    JitterGap(b3, b4, k, d3, d4);
  }

  lemma ProductGap(b3: real, b4: real, k: real)
    requires 0.0 < b3 <= 5.75
    requires 17.0 <= b4
    requires 0.5 <= k <= 1.0
    ensures b4 * k - b3 * k >= 5.0
  {
    MulMonotone(b3, 5.75, k);
    MulMonotone(17.0, b4, k);
  }

  lemma JitterGap(b3: real, b4: real, k: real, d3: real, d4: real)
    requires b4 * k - b3 * k >= 5.0
    requires IsDraw(d3) && IsDraw(d4)
    ensures b3 * k + 0.1 * d3 < b4 * k + 0.1 * d4
  {
  }

  /** Without the creator boost the score is the base score times the
      dampener, plus the jitter. */
  lemma Unboosted(base: real, influence: real, draw: real)
    requires 0.0 < base
    requires 0.0 < influence <= 1.0
    requires IsDraw(draw)
    ensures FinalScore(base, 1.0, influence, draw) - 0.1 * draw == base * influence
  {
  }

  /** A mutual follow does not outweigh a 19-reaction engagement gap: P4
      ranks above P3 whatever the draws. */
  lemma MutualFollowScenario(m: MathLib, now: int, d3: real, d4: real)
    requires Sound(m)
    requires IsDraw(d3) && IsDraw(d4)
    ensures RankFeed(m, now, [PostP3(now), PostP4(now)], Some(ViewerV()), [AuthorC(now), AuthorD(now)], [d3, d4])
         == [PostP4(now), PostP3(now)]
  {
    var r3 := CalculatePostScore(m, now, PostP3(now), Some(ViewerV()), AuthorC(now), d3);
    var r4 := CalculatePostScore(m, now, PostP4(now), Some(ViewerV()), AuthorD(now), d4);
    BreakdownOfP3(m, now, d3);
    BreakdownOfP4(m, now, d4);
    MutualFollowGap(r3.baseScore, r4.baseScore, FollowerInfluence(m, 1), d3, d4);
    RankFeedOfTwo(m, now, PostP3(now), PostP4(now), Some(ViewerV()), AuthorC(now), AuthorD(now), d3, d4);
  }
}
