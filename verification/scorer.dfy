/** The per-post scorer, `calculatePostScore` in utils/ranking.ts. The clock is
    the explicit `now`, `Math.random()` is the explicit `draw` in [0, 1), and
    `Math.exp` / `Math.log10` come from a `MathLib`. The diagnostic reason
    string is not modelled. */
module Scorer {
  import opened Wrappers
  import opened Records
  import opened Transcendental

  // The tuning constants of the ranking (CONSTANTS in the source). The
  // thresholds are named here; the weights and multipliers enter products and
  // are written as literals at their single point of use, with their source
  // names in a comment, so that the arithmetic stays linear for the verifier.
  const NewUserDaysThreshold: real := 30.0
  const ViralEngagementThreshold: real := 50.0
  const VelocityHoursThreshold: real := 3.0
  const VelocityEngagementThreshold: real := 10.0

  /** Milliseconds per hour and per day, the divisors of the two ages. */
  const MsPerHour: int := 3600000
  const MsPerDay: int := 86400000

  /** Account age assumed for an author without a creation timestamp. */
  const MissingAccountAgeDays: real := 999.0

  /** A post together with its rank score (ScoredPost, without the debug record). */
  datatype ScoredPost = ScoredPost(post: Post, score: real)

  /** The sub-scores and multipliers behind one post's score. */
  datatype Breakdown = Breakdown(
    freshness: real,
    engagement: real,
    affinity: real,
    interest: real,
    baseScore: real,
    newUser: real,
    viral: real,
    velocity: real,
    followerInfluence: real,
    score: real)

  /** A draw of `Math.random()`. */
  predicate IsDraw(d: real) {
    0.0 <= d < 1.0
  }

  /** Hours since the post was created: a missing timestamp counts as "now",
      and a timestamp in the future is clamped to zero. */
  function HoursSinceCreation(now: int, createdAt: Option<int>): (h: real)
    ensures 0.0 <= h
    ensures createdAt.None? ==> h == 0.0
    ensures createdAt.Some? && now <= createdAt.value ==> h == 0.0
    ensures createdAt.Some? && createdAt.value <= now ==> h * MsPerHour as real == (now - createdAt.value) as real
  {
    match createdAt
    case None => 0.0
    case Some(t) =>
      var h := (now - t) as real / MsPerHour as real;
      if h < 0.0 then 0.0 else h
  }

  /** exp(-lambda * hours): always in (0, 1], exactly 1 for a brand-new post. */
  function Freshness(m: MathLib, hours: real): (f: real)
    requires Sound(m)
    requires 0.0 <= hours
    ensures 0.0 < f <= 1.0
    ensures hours == 0.0 ==> f == 1.0
  {
    ExpOfNonPositive(m, -0.05 * hours);
    m.exp(-0.05 * hours)  // DECAY_LAMBDA
  }

  /** Freshness strictly decreases with age. */
  lemma FreshnessDecreasing(m: MathLib, h1: real, h2: real)
    requires Sound(m)
    requires 0.0 <= h1 < h2
    ensures Freshness(m, h1) > Freshness(m, h2)
  {
    ExpIncreasing(m, -0.05 * h2, -0.05 * h1);
  }

  /** The weighted engagement value before multipliers. It is zero exactly when
      the post has no engagement at all. */
  function RawEngagement(p: Post): (r: real)
    ensures 0.0 <= r
    ensures r == 0.0 <==> p.reactions == 0 && p.comments == 0 && p.shares == 0 && ViewCount(p) == 0
  {
    p.reactions as real * 0.5            // VAL_LIKE
    + p.comments as real * 2.0           // VAL_COMMENT
    + p.shares as real * 3.0             // VAL_REPOST
    + ViewCount(p) as real * (5.0 / 100.0)  // VAL_WATCH_TIME_SCORE / 100
  }

  /** Raw engagement is an exact number of twentieths: a like is worth 10, a
      comment 40, a share 60 and a view 1. */
  lemma RawEngagementInTwentieths(p: Post)
    ensures RawEngagement(p) * 20.0
         == (10 * p.reactions + 40 * p.comments + 60 * p.shares + ViewCount(p)) as real
  {
  }

  /** Raising any engagement counter, keeping the others, never lowers raw engagement;
      raising a like, comment, share or view count strictly raises it. */
  lemma EngagementMonotone(p: Post, q: Post)
    requires p.reactions <= q.reactions && p.comments <= q.comments
    requires p.shares <= q.shares && ViewCount(p) <= ViewCount(q)
    ensures RawEngagement(p) <= RawEngagement(q)
    ensures p.reactions < q.reactions || p.comments < q.comments || p.shares < q.shares
              || ViewCount(p) < ViewCount(q)
            ==> RawEngagement(p) < RawEngagement(q)
  {
  }

  /** The viral multiplier: 1.3 for raw engagement strictly above 50, else 1. */
  function ViralMultiplierFor(raw: real): (v: real)
    ensures v == 1.3 <==> raw > ViralEngagementThreshold
    ensures v == 1.0 <==> raw <= ViralEngagementThreshold
  {
    if raw > ViralEngagementThreshold then 1.3 else 1.0  // VIRAL_MULTIPLIER
  }

  /** The velocity multiplier: 1.4 for a post strictly younger than 3 hours
      whose raw engagement is strictly above 10, else 1. */
  function VelocityMultiplierFor(hours: real, raw: real): (v: real)
    ensures v == 1.4 <==> hours < VelocityHoursThreshold && raw > VelocityEngagementThreshold
    ensures v == 1.0 <==> !(hours < VelocityHoursThreshold && raw > VelocityEngagementThreshold)
  {
    if hours < VelocityHoursThreshold && raw > VelocityEngagementThreshold then 1.4 else 1.0  // VELOCITY_MULTIPLIER
  }

  /** The engagement score: raw engagement amplified by the viral and velocity
      multipliers, which compose multiplicatively (at most 1.3 * 1.4 = 1.82). */
  function EngagementScore(p: Post, hours: real): (e: real)
    ensures RawEngagement(p) <= e <= 1.82 * RawEngagement(p)
    ensures e > RawEngagement(p) <==> RawEngagement(p) > ViralEngagementThreshold
                                      || (hours < VelocityHoursThreshold && RawEngagement(p) > VelocityEngagementThreshold)
    ensures RawEngagement(p) > ViralEngagementThreshold && hours < VelocityHoursThreshold
            ==> e == 1.82 * RawEngagement(p)
  {
    var raw := RawEngagement(p);
    raw * ViralMultiplierFor(raw) * VelocityMultiplierFor(hours, raw)
  }

  /** Follow affinity between the viewer and the author: neutral without a
      viewer or for the author's own post; for a viewer who follows the author,
      2 when the viewer is also listed among the author's followers and 1.5
      when not; 1 otherwise. Both tests are about the viewer following the
      author: whether the author follows the viewer is never consulted. */
  function Affinity(viewer: Option<User>, author: User): (a: real)
    ensures a == 1.0 || a == 1.5 || a == 2.0
    ensures a == 2.0 <==> viewer.Some? && viewer.value.id != author.id
                          && author.id in viewer.value.following && viewer.value.id in author.followers
    ensures a == 1.5 <==> viewer.Some? && viewer.value.id != author.id
                          && author.id in viewer.value.following && viewer.value.id !in author.followers
    ensures viewer.None? || viewer.value.id == author.id || author.id !in viewer.value.following ==> a == 1.0
  {
    match viewer
    case None => 1.0
    case Some(v) =>
      if v.id == author.id then 1.0
      else
        var isFollowing := author.id in v.following;
        if isFollowing && v.id in author.followers then 2.0
        else if isFollowing then 1.5
        else 1.0
  }

  /** The author's own `following` list never affects affinity. */
  lemma AffinityIgnoresAuthorFollowing(viewer: Option<User>, author: User, following: seq<int>)
    ensures Affinity(viewer, author.(following := following)) == Affinity(viewer, author)
  {
  }

  /** A viewer who follows the author, listed among the author's followers,
      gets affinity 2 even when the author does not follow the viewer. */
  lemma ListedFollowerWithoutFollowBack()
    ensures var viewer := User(1, [], [2], None, None);
            var author := User(2, [1], [], None, None);
            viewer.id !in author.following && Affinity(Some(viewer), author) == 2.0
  {
  }

  /** When the viewer's `following` and the author's `followers` agree, as
      they do when both come from one follow relation, the 1.5 branch never
      fires: affinity is 2 for a follower and 1 for anyone else. */
  lemma ConsistentFollowsNeverOneWay(viewer: User, author: User)
    requires author.id in viewer.following <==> viewer.id in author.followers
    ensures Affinity(Some(viewer), author) != 1.5
    ensures Affinity(Some(viewer), author) == 2.0
        <==> viewer.id != author.id && author.id in viewer.following
  {
  }

  function ToLowerChar(c: char): char {
    if 'A' <= c <= 'Z' then (c as int + 32) as char else c
  }

  /** `toLowerCase`, restricted to ASCII letters: every upper-case ASCII letter
      becomes its lower-case form and every other character stays. */
  function ToLower(s: string): (r: string)
    ensures |r| == |s|
    ensures forall i :: 0 <= i < |r| ==> !('A' <= r[i] <= 'Z')
    ensures forall i :: 0 <= i < |s| && !('A' <= s[i] <= 'Z') ==> r[i] == s[i]
    ensures forall i :: 0 <= i < |s| && 'A' <= s[i] <= 'Z' ==> r[i] as int == s[i] as int + 32
  {
    seq(|s|, i requires 0 <= i < |s| => ToLowerChar(s[i]))
  }

  /** The number of post tags whose lower-cased form is one of the interests;
      a tag listed twice counts twice. The interests themselves are not
      lower-cased. */
  function MatchCount(tags: seq<string>, interests: seq<string>): (n: nat)
    ensures n <= |tags|
    ensures n == 0 <==> forall i :: 0 <= i < |tags| ==> ToLower(tags[i]) !in interests
    ensures n == |tags| <==> forall i :: 0 <= i < |tags| ==> ToLower(tags[i]) in interests
  {
    if tags == [] then 0
    else
      (if ToLower(tags[0]) in interests then 1 else 0) + MatchCount(tags[1..], interests)
  }

  /** Counting matches over two tag lists one after the other adds up, as
      filtering and then taking the length does. */
  lemma {:induction false} MatchCountAppend(a: seq<string>, b: seq<string>, interests: seq<string>)
    ensures MatchCount(a + b, interests) == MatchCount(a, interests) + MatchCount(b, interests)
    decreases |a|
  {
    if a == [] {
      assert a + b == b;
    } else {
      assert (a + b)[0] == a[0];
      assert (a + b)[1..] == a[1..] + b;
      MatchCountAppend(a[1..], b, interests);
    }
  }

  /** Half a point per matching tag; zero unless there is a viewer with an
      interest list and the post has a tag list. */
  function InterestScore(viewer: Option<User>, p: Post): (s: real)
    ensures 0.0 <= s
    ensures viewer.None? || viewer.value.interests.None? || p.tags.None? ==> s == 0.0
    ensures p.tags.Some? ==> s <= 0.5 * |p.tags.value| as real
    ensures viewer.Some? && viewer.value.interests.Some? && p.tags.Some? ==>
      s == 0.5 * MatchCount(p.tags.value, viewer.value.interests.value) as real
    ensures viewer.Some? && viewer.value.interests.Some? && p.tags.Some? ==>
      (s == 0.0 <==> forall i :: 0 <= i < |p.tags.value| ==> ToLower(p.tags.value[i]) !in viewer.value.interests.value)
    ensures viewer.Some? && viewer.value.interests.Some? && p.tags.Some? ==>
      (s == 0.5 * |p.tags.value| as real
       <==> forall i :: 0 <= i < |p.tags.value| ==> ToLower(p.tags.value[i]) in viewer.value.interests.value)
  {
    if viewer.Some? && viewer.value.interests.Some? && p.tags.Some? then
      MatchCount(p.tags.value, viewer.value.interests.value) as real * 0.5
    else 0.0
  }

  /** Days since the author joined; 999 when the author has no creation
      timestamp. Unlike the post's age this is not clamped at zero. */
  function DaysOnPlatform(now: int, createdAt: Option<int>): (d: real)
    ensures createdAt.None? ==> d == MissingAccountAgeDays
    ensures createdAt.Some? ==> d * MsPerDay as real == (now - createdAt.value) as real
  {
    match createdAt
    case None => MissingAccountAgeDays
    case Some(t) => (now - t) as real / MsPerDay as real
  }

  /** The new-creator boost: 1.5 exactly for accounts strictly younger than 30 days. */
  function CreatorBoost(days: real): (b: real)
    ensures b == 1.0 || b == 1.5
    ensures b == 1.5 <==> days < NewUserDaysThreshold
  {
    if days < NewUserDaysThreshold then 1.5 else 1.0  // NEW_USER_BOOST_MULTIPLIER
  }

  /** An author without a creation timestamp never gets the new-creator boost. */
  lemma NoBoostWithoutCreationDate(now: int, author: User)
    requires author.createdAt.None?
    ensures CreatorBoost(DaysOnPlatform(now, author.createdAt)) == 1.0
  {
  }

  /** The anti-monopoly dampener 1 / log10(followers + 10): in (0, 1], exactly 1
      for an author without followers. */
  function FollowerInfluence(m: MathLib, followers: nat): (f: real)
    requires Sound(m)
    ensures 0.0 < f <= 1.0
    ensures followers == 0 ==> f == 1.0
    ensures followers <= 90 ==> 0.5 <= f
  {
    FollowerLog10Bounds(m, followers);
    1.0 / m.log10((followers + 10) as real)
  }

  lemma FollowerLog10Bounds(m: MathLib, followers: nat)
    requires Sound(m)
    ensures 1.0 <= m.log10((followers + 10) as real)
    ensures followers <= 90 ==> m.log10((followers + 10) as real) <= 2.0
  {
    Log10AtLeastOne(m, (followers + 10) as real);
    if followers <= 90 {
      Log10Between(m, (followers + 10) as real);
    }
  }

  /** More followers never yield a larger dampener. */
  lemma FollowerInfluenceMonotone(m: MathLib, f1: nat, f2: nat)
    requires Sound(m)
    requires f1 <= f2
    ensures FollowerInfluence(m, f2) <= FollowerInfluence(m, f1)
  {
    var l1 := m.log10((f1 + 10) as real);
    var l2 := m.log10((f2 + 10) as real);
    Log10AtLeastOne(m, (f1 + 10) as real);
    Log10Monotone(m, (f1 + 10) as real, (f2 + 10) as real);
    assert 1.0 / l2 <= 1.0 / l1 by {
      assert 0.0 < l1 <= l2;
      DivideMonotone(l1, l2);
    }
  }

  lemma DivideMonotone(a: real, b: real)
    requires 0.0 < a <= b
    ensures 1.0 / b <= 1.0 / a
  {
  }

  /** Scaling a positive base by a boost in {1, 1.5} and a dampener in (0, 1]. */
  lemma ScaledBounds(base: real, boost: real, influence: real)
    requires 0.0 < base
    requires boost == 1.0 || boost == 1.5
    requires 0.0 < influence <= 1.0
    ensures 0.0 < base * boost * influence <= 1.5 * base
  {
    assert 0.0 < base * boost <= 1.5 * base;
    assert base * boost * influence <= base * boost;
  }

  /** The weighted sum of the four sub-scores. With a positive freshness, an
      affinity of at least 1 and non-negative engagement and interest it
      exceeds 2, the affinity weight. */
  function BaseScore(freshness: real, engagement: real, affinity: real, interest: real): (b: real)
    ensures 0.0 < freshness && 1.0 <= affinity && 0.0 <= engagement && 0.0 <= interest ==> 2.0 < b
  {
    freshness * 1.0      // WEIGHT_FRESHNESS
    + engagement * 1.5   // WEIGHT_ENGAGEMENT
    + affinity * 2.0     // WEIGHT_AFFINITY
    + interest * 0.8     // WEIGHT_INTEREST
  }

  /** The base score strictly increases with freshness and never decreases
      with engagement; with the other two fixed it strictly increases with
      affinity. */
  lemma BaseScoreMonotone(f1: real, e1: real, a1: real, f2: real, e2: real, a2: real, i: real)
    requires f1 <= f2 && e1 <= e2 && a1 <= a2
    requires f1 < f2 || a1 < a2
    ensures BaseScore(f1, e1, a1, i) < BaseScore(f2, e2, a2, i)
  {
  }

  /** base * boost * dampener + 0.1 * draw. */
  function FinalScore(base: real, boost: real, influence: real, draw: real): (s: real)
    requires 0.0 < base
    requires boost == 1.0 || boost == 1.5
    requires 0.0 < influence <= 1.0
    requires IsDraw(draw)
    ensures s - 0.1 * draw == base * boost * influence
    ensures 0.0 < s - 0.1 * draw <= 1.5 * base
    ensures 0.1 * draw <= s < 0.1 + 1.5 * base
  {
    ScaledBounds(base, boost, influence);
    base * boost * influence + 0.1 * draw  // Math.random() * 0.1
  }

  /** The score of one post for one viewer, `calculatePostScore`. The score is
      the base score scaled by the creator boost and the follower dampener,
      plus a jitter of 0.1 * draw; without the jitter it is positive and at
      most 1.5 times the base score, which itself exceeds 2. */
  function CalculatePostScore(m: MathLib, now: int, p: Post, viewer: Option<User>, author: User, draw: real)
    : (r: Breakdown)
    requires Sound(m)
    requires IsDraw(draw)
    ensures 0.0 < r.freshness <= 1.0
    ensures r.affinity == 1.0 || r.affinity == 1.5 || r.affinity == 2.0
    ensures r.viral == 1.0 || r.viral == 1.3
    ensures r.velocity == 1.0 || r.velocity == 1.4
    ensures r.engagement == RawEngagement(p) * r.viral * r.velocity
    ensures r.newUser == 1.0 || r.newUser == 1.5
    ensures 0.0 <= r.interest
    ensures 0.0 < r.followerInfluence <= 1.0
    ensures 2.0 < r.baseScore
    ensures r.score == FinalScore(r.baseScore, r.newUser, r.followerInfluence, draw)
    ensures 0.0 < r.score - 0.1 * draw <= 1.5 * r.baseScore
    ensures 0.1 * draw <= r.score < 0.1 + 1.5 * r.baseScore
  {
    var hours := HoursSinceCreation(now, p.createdAt);
    var freshness := Freshness(m, hours);
    var raw := RawEngagement(p);
    var viral := ViralMultiplierFor(raw);
    var velocity := VelocityMultiplierFor(hours, raw);
    var engagement := EngagementScore(p, hours);
    var affinity := Affinity(viewer, author);
    var interest := InterestScore(viewer, p);
    var base := BaseScore(freshness, engagement, affinity, interest);
    var boost := CreatorBoost(DaysOnPlatform(now, author.createdAt));
    var influence := FollowerInfluence(m, |author.followers|);
    Breakdown(freshness, engagement, affinity, interest, base, boost, viral, velocity, influence,
              FinalScore(base, boost, influence, draw))
  }

  /** What each entry of the breakdown means in terms of the post, the viewer
      and the author: the multipliers and the boost switch on exactly at their
      thresholds, the affinity reflects the follow relation, the base score is
      the weighted sum with weights 1, 1.5, 2 and 0.8, and the dampener is the
      reciprocal of log10(followers + 10). */
  lemma ScoreComponents(m: MathLib, now: int, p: Post, viewer: Option<User>, author: User, draw: real)
    requires Sound(m)
    requires IsDraw(draw)
    ensures var r := CalculatePostScore(m, now, p, viewer, author, draw);
      && r.freshness == Freshness(m, HoursSinceCreation(now, p.createdAt))
      && r.interest == InterestScore(viewer, p)
      && (r.viral == 1.3 <==> RawEngagement(p) > 50.0)
      && (r.velocity == 1.4 <==> HoursSinceCreation(now, p.createdAt) < 3.0 && RawEngagement(p) > 10.0)
      && (r.affinity == 2.0 <==> viewer.Some? && viewer.value.id != author.id
                                 && author.id in viewer.value.following && viewer.value.id in author.followers)
      && (r.affinity == 1.5 <==> viewer.Some? && viewer.value.id != author.id
                                 && author.id in viewer.value.following && viewer.value.id !in author.followers)
      && r.baseScore == r.freshness + 1.5 * r.engagement + 2.0 * r.affinity + 0.8 * r.interest
      && (r.newUser == 1.5 <==> DaysOnPlatform(now, author.createdAt) < 30.0)
      && (author.createdAt.None? ==> r.newUser == 1.0)
      && r.followerInfluence * m.log10((|author.followers| + 10) as real) == 1.0
  {
    var r := CalculatePostScore(m, now, p, viewer, author, draw);
    FollowerLog10Bounds(m, |author.followers|);
    assert r.followerInfluence == 1.0 / m.log10((|author.followers| + 10) as real);
  }

  /** With boost, dampener and jitter fixed, a larger base score gives a larger final score. */
  lemma FinalScoreMonotone(b1: real, b2: real, boost: real, influence: real, draw: real)
    requires 0.0 < b1 < b2
    requires boost == 1.0 || boost == 1.5
    requires 0.0 < influence <= 1.0
    requires IsDraw(draw)
    ensures FinalScore(b1, boost, influence, draw) < FinalScore(b2, boost, influence, draw)
  {
    MulStrict(b1, b2, boost);
    MulStrict(b1 * boost, b2 * boost, influence);
    var s1 := FinalScore(b1, boost, influence, draw);
    var s2 := FinalScore(b2, boost, influence, draw);
    assert s1 - s2 == b1 * boost * influence - b2 * boost * influence;
    assert s1 - s2 < 0.0;
  }

  lemma MulStrict(a: real, b: real, c: real)
    requires a < b
    requires 0.0 < c
    ensures a * c < b * c
  {
  }

  lemma MulMonotone(a: real, b: real, c: real)
    requires a <= b
    requires 0.0 <= c
    ensures a * c <= b * c
  {
  }

  /** With everything else fixed, a newer post's engagement score is at least
      an older one's: only the velocity multiplier depends on age. */
  lemma EngagementNotLowerWhenNewer(p: Post, h1: real, h2: real)
    requires h1 < h2
    ensures EngagementScore(p, h2) <= EngagementScore(p, h1)
  {
    var raw := RawEngagement(p);
    var rv := raw * ViralMultiplierFor(raw);
    assert 0.0 <= rv;
    MulMonotone(VelocityMultiplierFor(h2, raw), VelocityMultiplierFor(h1, raw), rv);
  }

  /** Of two posts identical except for their creation time, the strictly newer
      one scores strictly higher under the same jitter draw: it is fresher and
      its velocity multiplier is at least as large. */
  lemma NewerPostScoresHigher(m: MathLib, now: int, p: Post, q: Post, viewer: Option<User>, author: User, draw: real)
    requires Sound(m)
    requires IsDraw(draw)
    requires q == p.(createdAt := q.createdAt)
    requires HoursSinceCreation(now, p.createdAt) < HoursSinceCreation(now, q.createdAt)
    ensures CalculatePostScore(m, now, p, viewer, author, draw).score
          > CalculatePostScore(m, now, q, viewer, author, draw).score
  {
    var hp := HoursSinceCreation(now, p.createdAt);
    var hq := HoursSinceCreation(now, q.createdAt);
    var a := Affinity(viewer, author);
    var i := InterestScore(viewer, p);
    NewerBaseHigher(m, p, hp, hq, a, i);
    assert RawEngagement(p) == RawEngagement(q);
    assert EngagementScore(p, hq) == EngagementScore(q, hq);
    assert InterestScore(viewer, q) == i;
    var rp := CalculatePostScore(m, now, p, viewer, author, draw);
    var rq := CalculatePostScore(m, now, q, viewer, author, draw);
    assert rp.baseScore == BaseScore(Freshness(m, hp), EngagementScore(p, hp), a, i);
    assert rq.baseScore == BaseScore(Freshness(m, hq), EngagementScore(p, hq), a, i);
    assert rp.newUser == rq.newUser && rp.followerInfluence == rq.followerInfluence;
    FinalScoreMonotone(rq.baseScore, rp.baseScore, rp.newUser, rp.followerInfluence, draw);
  }

  /** For one post, affinity and interest, a strictly younger age gives a
      strictly larger base score. */
  lemma NewerBaseHigher(m: MathLib, p: Post, hp: real, hq: real, a: real, i: real)
    requires Sound(m)
    requires 0.0 <= hp < hq
    ensures BaseScore(Freshness(m, hp), EngagementScore(p, hp), a, i)
          > BaseScore(Freshness(m, hq), EngagementScore(p, hq), a, i)
  {
    FreshnessDecreasing(m, hp, hq);
    EngagementNotLowerWhenNewer(p, hp, hq);
    BaseScoreMonotone(Freshness(m, hq), EngagementScore(p, hq), a, Freshness(m, hp), EngagementScore(p, hp), a, i);
  }

  /** For the same post, author and draw, and viewers with the same interests
      who are not the author: a follower listed among the author's followers
      outranks a follower who is not listed, who outranks a viewer who does
      not follow the author. */
  lemma AffinityOrdering(m: MathLib, now: int, p: Post, author: User,
                         listed: User, unlisted: User, unrelated: User, draw: real)
    requires Sound(m)
    requires IsDraw(draw)
    requires listed.interests == unlisted.interests == unrelated.interests
    requires listed.id != author.id && unlisted.id != author.id && unrelated.id != author.id
    requires author.id in listed.following && listed.id in author.followers
    requires author.id in unlisted.following && unlisted.id !in author.followers
    requires author.id !in unrelated.following
    ensures CalculatePostScore(m, now, p, Some(listed), author, draw).score
          > CalculatePostScore(m, now, p, Some(unlisted), author, draw).score
          > CalculatePostScore(m, now, p, Some(unrelated), author, draw).score
  {
    var r2 := CalculatePostScore(m, now, p, Some(listed), author, draw);
    var r15 := CalculatePostScore(m, now, p, Some(unlisted), author, draw);
    var r1 := CalculatePostScore(m, now, p, Some(unrelated), author, draw);
    assert r2.affinity == 2.0 && r15.affinity == 1.5 && r1.affinity == 1.0;
    assert r2.interest == r15.interest == r1.interest;
    BaseScoreMonotone(r1.freshness, r1.engagement, r1.affinity, r15.freshness, r15.engagement, r15.affinity, r1.interest);
    BaseScoreMonotone(r15.freshness, r15.engagement, r15.affinity, r2.freshness, r2.engagement, r2.affinity, r1.interest);
    assert r1.baseScore < r15.baseScore < r2.baseScore;
    FinalScoreMonotone(r1.baseScore, r15.baseScore, r1.newUser, r1.followerInfluence, draw);
    FinalScoreMonotone(r15.baseScore, r2.baseScore, r1.newUser, r1.followerInfluence, draw);
  }
}
