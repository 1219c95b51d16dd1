# Feed ranking model

A Dafny model of the feed-ranking engine in `utils/ranking.ts`. The engine ranks
posts for one viewer in two parts.

- **Per-post score.** `calculatePostScore` combines:
  - an exponential freshness term;
  - a weighted engagement value, amplified by a viral multiplier and a velocity multiplier;
  - a three-valued follow affinity;
  - a tag-interest count.

  The weighted sum is then scaled by a new-creator boost and a follower
  dampener 1 / log10(followers + 10), and a random jitter below 0.1 is added.
- **Pipeline.** `rankFeed` runs these steps:
  1. builds an id → user directory;
  2. drops posts whose author is not in the directory and scores the rest;
  3. sorts by score, highest first;
  4. applies the diversity pass, which divides the k-th post of each author by k + 1;
  5. sorts again and returns the posts.

Modules, in dependency order:

| file | module | contents |
|---|---|---|
| wrappers.dfy | `Wrappers` | `Option` |
| records.dfy | `Records` | `Post` and `User`, only the fields the engine reads |
| transcendental.dfy | `Transcendental` | `MathLib` carries `exp` and `log10`. `Sound` lists the facts the proofs use about them: `exp` is positive and increasing with exp(0) = 1; `log10` is increasing with log10(10) = 1 and log10(100) = 2 |
| scorer.dfy | `Scorer` | `calculatePostScore` and its sub-scores |
| sorting.dfy | `Sorting` | stable descending insertion sort |
| diversity.dfy | `Diversity` | the diversity pass, a left fold over a `map<int, nat>` of per-author counts |
| ranking.dfy | `Ranking` | `rankFeed` |
| scenarios.dfy | `Scenarios` | two worked two-post rankings, proved for every `exp`, `log10` and draw |

Inputs that the source reads implicitly are explicit parameters here:

- The clock is `now`, in milliseconds.
- `Math.random()` is a sequence `draws`, one value in [0, 1) per input post, at the post's own position.
- `Math.exp` and `Math.log10` are the `MathLib` argument.

## Model

| member | source | states |
|---|---|---|
| Scorer.HoursSinceCreation | utils/ranking.ts:54-56 | Post age in hours is never negative. A missing timestamp gives 0 and a future timestamp gives 0. Otherwise age × 3 600 000 equals the elapsed milliseconds. |
| Scorer.Freshness | utils/ranking.ts:58 | Freshness exp(-0.05·h) lies in (0, 1] and is exactly 1 for a post of age 0. |
| Scorer.FreshnessDecreasing | utils/ranking.ts:58 | A strictly older post is strictly less fresh. |
| Records.ViewCount | utils/ranking.ts:64 | A missing view count reads as 0; a present one reads as itself. |
| Scorer.RawEngagement | utils/ranking.ts:60-64 | Raw engagement is never negative. It is zero exactly when reactions, comments, shares and views (a missing view count counts as 0) are all zero. |
| Scorer.RawEngagementInTwentieths | utils/ranking.ts:60-64 | Raw engagement × 20 = 10·reactions + 40·comments + 60·shares + views, an exact integer. |
| Scorer.EngagementMonotone | utils/ranking.ts:60-64 | Raising counters, keeping the others, never lowers raw engagement. A strict rise in any counter strictly raises it. |
| Scorer.ViralMultiplierFor | utils/ranking.ts:66-69 | The viral multiplier is 1.3 exactly when raw engagement is strictly above 50, and 1 otherwise, so exactly 50 gets 1. |
| Scorer.VelocityMultiplierFor | utils/ranking.ts:71-74 | The velocity multiplier is 1.4 exactly when age is strictly under 3 hours and raw engagement is strictly above 10, and 1 otherwise. |
| Scorer.EngagementScore | utils/ranking.ts:66-75 | The engagement score lies between raw and 1.82 × raw. It exceeds raw exactly when the viral or the velocity condition holds. It equals 1.82 × raw when both hold. |
| Scorer.EngagementNotLowerWhenNewer | utils/ranking.ts:71-75 | For a fixed post, a younger age never gives a lower engagement score. |
| Scorer.Affinity | utils/ranking.ts:77-85 | Affinity is one of 1, 1.5 or 2. It is 2 exactly when a viewer other than the author follows the author and is listed among the author's followers. It is 1.5 exactly when that viewer follows the author but is not listed among the author's followers. It is 1 with no viewer, for the author's own post, or when the viewer does not follow the author. |
| Scorer.AffinityIgnoresAuthorFollowing | utils/ranking.ts:77-85 | Replacing the author's own following list never changes affinity: whether the author follows the viewer back is not consulted. |
| Scorer.ListedFollowerWithoutFollowBack | utils/ranking.ts:79-81 | A viewer who follows an author and is listed among that author's followers gets affinity 2 even when the author does not follow the viewer. |
| Scorer.ConsistentFollowsNeverOneWay | utils/ranking.ts:77-85 | When the viewer's following list and the author's followers list agree about this pair, affinity is never 1.5. It is 2 exactly when the viewer follows a different author. |
| Scorer.ToLower | utils/ranking.ts:89 | Lower-casing keeps the length. Each upper-case ASCII letter becomes the letter 32 code points above it, and every other character stays. |
| Scorer.MatchCount | utils/ranking.ts:89 | The number of matching tags is at most the number of tags. It is 0 exactly when no lower-cased tag is an interest, and it equals the tag count exactly when every lower-cased tag is one. |
| Scorer.MatchCountAppend | utils/ranking.ts:89 | The match count of two tag lists joined is the sum of their counts, like the length of a filter. |
| Scorer.InterestScore | utils/ranking.ts:87-91 | The interest score is 0 unless the viewer, the viewer's interests and the post's tags are all present. It always lies in [0, 0.5 × number of tags]. When all three are present, it is 0.5 × the number of tags whose lower-cased form is an interest, so it is 0 exactly when no lower-cased tag is an interest, and it is 0.5 × number of tags exactly when every one is. |
| Scorer.BaseScore | utils/ranking.ts:93-97 | With positive freshness, affinity at least 1 and non-negative engagement and interest, the base score exceeds 2. |
| Scorer.BaseScoreMonotone | utils/ranking.ts:93-97 | With interest fixed, when none of freshness, engagement and affinity falls and freshness or affinity strictly rises, the base score strictly rises. |
| Scorer.DaysOnPlatform | utils/ranking.ts:100 | A missing author timestamp gives 999 days. Otherwise days × 86 400 000 equals the elapsed milliseconds, with no clamping. |
| Scorer.CreatorBoost | utils/ranking.ts:99-103 | The boost is 1 or 1.5. It is 1.5 exactly when the account is strictly younger than 30 days. |
| Scorer.NoBoostWithoutCreationDate | utils/ranking.ts:100-103 | An author without a creation timestamp never gets the boost. |
| Scorer.FollowerInfluence | utils/ranking.ts:105 | The dampener lies in (0, 1]. It is 1 with no followers and at least 1/2 with at most 90 followers. |
| Scorer.FollowerInfluenceMonotone | utils/ranking.ts:105 | More followers never give a larger dampener. |
| Scorer.FinalScore | utils/ranking.ts:106-108 | Subtracting the jitter 0.1·draw leaves base × boost × dampener, which lies in (0, 1.5 × base]. The score itself lies in [0.1·draw, 0.1 + 1.5 × base). |
| Scorer.FinalScoreMonotone | utils/ranking.ts:106-108 | With boost, dampener and draw fixed, a larger base score gives a strictly larger final score. |
| Scorer.CalculatePostScore | utils/ranking.ts:53-133 | Freshness lies in (0, 1], the viral multiplier is 1 or 1.3, the velocity multiplier is 1 or 1.4, engagement is raw × viral × velocity, affinity is 1, 1.5 or 2, interest is never negative, the boost is 1 or 1.5 and the dampener lies in (0, 1]. The base score exceeds 2. The score is the final score of the breakdown's own base, boost and dampener. |
| Scorer.ScoreComponents | utils/ranking.ts:53-108 | In the breakdown, the viral multiplier is 1.3 exactly when raw engagement exceeds 50. The velocity multiplier is 1.4 exactly when the post is under 3 hours old and raw engagement exceeds 10. Freshness is exp(-0.05 × the post's age in hours). Affinity is 2 or 1.5 exactly as `Affinity` says, and interest is the interest score. The boost is 1.5 exactly when the account age is under 30 days, and never without a creation timestamp. The base score is freshness + 1.5·engagement + 2·affinity + 0.8·interest. The dampener times log10(followers + 10) is 1. |
| Scorer.NewerPostScoresHigher | utils/ranking.ts:53-108 | Of two posts that differ only in creation time, the strictly younger one scores strictly higher under the same draw. |
| Scorer.NewerBaseHigher | utils/ranking.ts:56-97 | For one post with affinity and interest fixed, a strictly younger age gives a strictly larger base score. |
| Scorer.AffinityOrdering | utils/ranking.ts:77-108 | Take one post, author and draw, and viewers with the same interests, none of them the author. A viewer who follows the author and is listed among the author's followers then scores the post strictly above one who follows but is not listed, who scores it strictly above one who does not follow. |
| Sorting.Insert | utils/ranking.ts:150 | Inserting into a non-increasing list keeps it non-increasing and adds exactly the one element to its multiset. |
| Sorting.SortByScoreDesc | utils/ranking.ts:161 | The sort result is non-increasing in score and is a permutation of its input. |
| Sorting.Posts | utils/ranking.ts:172 | Mapping scored posts to their posts keeps the length, and position i holds the post of the i-th scored post. |
| Sorting.PostsOfPermutation | utils/ranking.ts:172 | Permuting scored posts permutes their posts the same way. |
| Diversity.DiversityFactor | utils/ranking.ts:154 | The factor 1/(1 + k) lies in (0, 1] and is 1 exactly when k = 0. |
| Diversity.Bump | utils/ranking.ts:153-157 | After passing a post, its author's count, read as 0 when absent, goes up by one, and every other author's count stays. |
| Diversity.AdjustDivides | utils/ranking.ts:154-155 | The adjusted score times 1 + k is the original score. A non-negative score is never raised, and an author with count 0 keeps the score. |
| Diversity.CountByZero | utils/ranking.ts:151-158 | The reference count of an author's posts is 0 exactly when no post in the list is by that author. |
| Diversity.DiversifyFrom | utils/ranking.ts:151-158 | The pass keeps the length. |
| Diversity.DiversifyFromKeepsPosts | utils/ranking.ts:151-158 | The pass leaves every post in place; only scores change. |
| Diversity.DiversifyFromScore | utils/ranking.ts:151-158 | The fold's count map agrees with a direct count. Position i is scaled by 1/(1 + n), where n is the author's starting count plus the author's posts before i. |
| Diversity.Diversify | utils/ranking.ts:139-158 | Starting from an empty count map, the pass keeps the length and the posts in order. |
| Diversity.DiversifyScore | utils/ranking.ts:139-158 | With the count starting at zero on every call, position i is scaled by 1/(1 + the number of the author's earlier posts). |
| Diversity.DiversityIsHarmonic | utils/ranking.ts:151-158 | The k-th post of an author, counting from 0, has its score divided by exactly k + 1. The first is unchanged, the second halved and the third divided by three. |
| Diversity.DiversityNeverRaises | utils/ranking.ts:151-158 | A non-negative score is never raised. A positive score is lowered exactly when an earlier post in the list is by the same author. |
| Ranking.UserMap | utils/ranking.ts:136-137 | The directory's keys are exactly the users' ids, and each entry is a user with that id. A user no later user shares an id with is the entry for that id, so the last one wins. |
| Ranking.Retained | utils/ranking.ts:141-149 | The retained posts are each post whose author is in the directory, as often as in the input, and no other post. |
| Ranking.PostScore | utils/ranking.ts:146 | Every post's score is strictly positive. |
| Ranking.ScoreAll | utils/ranking.ts:141-149 | Scoring yields at most one candidate per post, each with a positive score. |
| Ranking.ScoreAllScores | utils/ranking.ts:141-149 | Each candidate is a post whose author is in the directory, carrying the calculatePostScore score of that post against its directory author, with the post's own draw. |
| Ranking.ScoreAllPosts | utils/ranking.ts:141-149 | The scored candidates' posts are exactly `Retained`'s list. That they keep the input order comes from `Retained`'s definition, since its contract states only multiplicities. |
| Ranking.RankScored | utils/ranking.ts:141-161 | The ranked candidates are non-increasing in diversity-adjusted score. They are a permutation of the diversity pass's output and carry exactly the retained posts. |
| Ranking.RankFeed | utils/ranking.ts:135-172 | A post whose author is not in the directory never appears. Every other post appears exactly as often as in the input, so the length is the retained count. An empty post list or empty directory gives an empty feed. The feed is the post list of a reordering of the diversity pass's output that is non-increasing in diversity-adjusted score. |
| Scenarios.RankFeedOfTwo | utils/ranking.ts:135-172 | With a directory of two users with distinct ids and one post by each, the feed lists the two posts in score order, the first input first on a tie. |
| Scenarios.NewCreatorScenario | utils/ranking.ts:53-172 | An established author's 100-reaction post (2 hours old, 1 follower, 40-day account) ranks above a 5-reaction post of the same age by a 2-day-old account with no followers, for every draw. |
| Scenarios.MutualFollowScenario | utils/ranking.ts:53-172 | For a viewer, a 1-reaction post by a mutual follow ranks below a 20-reaction post of the same age (10 hours) by an author the viewer does not follow. Both authors have 1 follower and 100-day accounts. This holds for every draw. |

## Notes on behaviour

- The debug reason calls affinity 2 a "Mutual Follow" (utils/ranking.ts:114),
  but the test at utils/ranking.ts:79-81 reads only the viewer's following
  list and the author's followers list. The author's own following list is
  never read (`Scorer.AffinityIgnoresAuthorFollowing`). A viewer `User(1)`
  following author 2, with 1 among author 2's followers and author 2
  following nobody, gets 2 (`Scorer.ListedFollowerWithoutFollowBack`). When
  the two lists agree about a pair, the one-way value 1.5 never occurs
  (`Scorer.ConsistentFollowsNeverOneWay`); it arises only when the viewer's
  following list and the author's followers list disagree.

- Interest matching lower-cases the post's tag but not the viewer's interest
  (utils/ranking.ts:89). An interest stored with capitals therefore never
  matches, so the match is not case-insensitive on both sides. The model
  follows the code.
- An author whose creation timestamp lies in the future has a negative
  account age and gets the new-creator boost (utils/ranking.ts:100-101). Only
  the post's age is clamped at zero.
- The new-creator boost and the dampener do not make up a large engagement
  gap (`Scenarios.NewCreatorScenario`). The established author's post has raw
  engagement exactly 50, which is not viral, but it gets the velocity
  multiplier. Its score is at least 53.5, while the new creator's post scores
  below 10.23.

## Left out

- Floating point: scores are exact reals. `Math.exp` and `Math.log10` are
  parameters constrained only by `Transcendental.Sound`. Rounding, NaN and
  infinities are not modelled.
- Date parsing: timestamps are already-parsed milliseconds. `Option.None`
  stands for an empty `created_at`. An unparsable date string, which gives
  NaN in the source, is not modelled.
- `Date.now()` is read once per post in the source. The model uses one `now`
  for the whole call.
- Integer-valued counters: `shares` and `views` are `number` in the source
  and natural numbers here.
- The `reason` and debug strings (utils/ranking.ts:110-115, 156), and the
  top-5 console dump (utils/ranking.ts:163-170), are diagnostics that do not
  affect order.
- Scorer.ToLower: models `toLowerCase` for ASCII letters only, so
  Scorer.MatchCount and Scorer.InterestScore inherit that limit. A tag
  "Ärger" matches the interest "ärger" in the source but not in the model.
- `VAL_SAVE` and `SMALL_CREATOR_FOLLOWER_THRESHOLD` are declared in the
  source but never used.
- Sorting.SortByScoreDesc: the sort is a stable insertion sort, like
  JavaScript's stable `Array.prototype.sort`. Its contract states only
  ordering and permutation, not the tie order among equal scores.
- The mutual-follow scenario fixes its own follower counts (one per author),
  account ages (100 days) and interests (none); other choices give other
  margins.
