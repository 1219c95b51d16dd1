/** `rankFeed`: look up each post's author, drop posts whose author is not in
    the directory, score the rest, sort by score, apply the diversity pass,
    sort again by the adjusted scores, and return the posts. `Math.random()`
    is the sequence `draws`, one value per input post. */
module Ranking {
  import opened Wrappers
  import opened Records
  import opened Transcendental
  import opened Scorer
  import opened Sorting
  import opened Diversity

  /** The ids of the users in the directory. */
  function UserIds(users: seq<User>): set<int> {
    set u | u in users :: u.id
  }

  /** No later user in the sequence shares the id of `users[k]`. */
  predicate LastWithId(users: seq<User>, k: nat)
    requires k < |users|
  {
    forall j :: k < j < |users| ==> users[j].id != users[k].id
  }

  /** `userMap`: the users keyed by id; when two users share an id, the later
      one replaces the earlier one, as `Map.set` does. */
  function UserMap(users: seq<User>): (dir: map<int, User>)
    ensures dir.Keys == UserIds(users)
    ensures forall id :: id in dir ==> dir[id] in users && dir[id].id == id
    ensures forall k :: 0 <= k < |users| && LastWithId(users, k) ==> dir[users[k].id] == users[k]
  {
    if users == [] then map[]
    else
      var init := users[..|users| - 1];
      var u := users[|users| - 1];
      assert users == init + [u];
      UserMapStepKeys(users, init, u, UserMap(init), UserMap(init)[u.id := u]);
      UserMapStepLast(users, init, u, UserMap(init), UserMap(init)[u.id := u]);
      UserMap(init)[u.id := u]
  }

  /** Setting one more user keeps the keys equal to the ids, and every entry a
      user with its key as id. */
  lemma UserMapStepKeys(users: seq<User>, init: seq<User>, u: User, dir: map<int, User>, dir': map<int, User>)
    requires users == init + [u]
    requires dir' == dir[u.id := u]
    requires dir.Keys == UserIds(init)
    requires forall id :: id in dir ==> dir[id] in init && dir[id].id == id
    ensures dir'.Keys == UserIds(users)
    ensures forall id :: id in dir' ==> dir'[id] in users && dir'[id].id == id
  {
    assert UserIds(users) == UserIds(init) + {u.id};
  }

  /** Setting one more user keeps every user that no later user shares an id
      with as the entry for its id. */
  lemma UserMapStepLast(users: seq<User>, init: seq<User>, u: User, dir: map<int, User>, dir': map<int, User>)
    requires users == init + [u]
    requires dir' == dir[u.id := u]
    requires dir.Keys == UserIds(init)
    requires forall k :: 0 <= k < |init| && LastWithId(init, k) ==> dir[init[k].id] == init[k]
    ensures forall k :: 0 <= k < |users| && LastWithId(users, k) ==> dir'[users[k].id] == users[k]
  {
    forall k | 0 <= k < |users| && LastWithId(users, k)
      ensures dir'[users[k].id] == users[k]
    {
      if k < |init| {
        assert users[k] == init[k] && users[|init|] == u;
        forall j | k < j < |init|
          ensures init[j].id != init[k].id
        {
          assert users[j] == init[j];
        }
      }
    }
  }

  /** The posts whose author is in `dir`, in their original order: each such
      post as often as in `posts`, every other post not at all. */
  function Retained(posts: seq<Post>, dir: map<int, User>): (r: seq<Post>)
    ensures |r| <= |posts|
    ensures forall p :: multiset(r)[p] == if p.userId in dir then multiset(posts)[p] else 0
  {
    if posts == [] then []
    else
      assert posts == [posts[0]] + posts[1..];
      (if posts[0].userId in dir then [posts[0]] else []) + Retained(posts[1..], dir)
  }

  /** Every draw lies in [0, 1). */
  ghost predicate AllDraws(draws: seq<real>) {
    forall i :: 0 <= i < |draws| ==> IsDraw(draws[i])
  }

  /** The score one candidate receives: `calculatePostScore`'s score for the
      post against its author, with the post's own draw. */
  function PostScore(m: MathLib, now: int, p: Post, viewer: Option<User>, author: User, draw: real): (s: real)
    requires Sound(m)
    requires IsDraw(draw)
    ensures 0.0 < s
  {
    CalculatePostScore(m, now, p, viewer, author, draw).score
  }

  /** The scored candidates: each retained post with its score against its
      author, using the draw at the post's own position. Orphan posts produce
      nothing; see `ScoreAllPosts` for which posts remain. */
  function ScoreAll(m: MathLib, now: int, posts: seq<Post>, viewer: Option<User>,
                    dir: map<int, User>, draws: seq<real>): (r: seq<ScoredPost>)
    requires Sound(m)
    requires |draws| == |posts|
    requires AllDraws(draws)
    ensures |r| <= |posts|
    ensures forall i :: 0 <= i < |r| ==> 0.0 < r[i].score
  {
    if posts == [] then []
    else
      var p := posts[0];
      var rest := ScoreAll(m, now, posts[1..], viewer, dir, draws[1..]);
      if p.userId in dir then [ScoredPost(p, PostScore(m, now, p, viewer, dir[p.userId], draws[0]))] + rest
      else rest
  }

  /** Scoring keeps exactly the retained posts, in their input order. */
  lemma {:induction false} ScoreAllPosts(m: MathLib, now: int, posts: seq<Post>, viewer: Option<User>,
                                         dir: map<int, User>, draws: seq<real>)
    requires Sound(m)
    requires |draws| == |posts|
    requires AllDraws(draws)
    ensures Posts(ScoreAll(m, now, posts, viewer, dir, draws)) == Retained(posts, dir)
    decreases |posts|
  {
    if posts != [] {
      var p := posts[0];
      var rest := ScoreAll(m, now, posts[1..], viewer, dir, draws[1..]);
      ScoreAllPosts(m, now, posts[1..], viewer, dir, draws[1..]);
      assert Retained(posts, dir) == (if p.userId in dir then [p] else []) + Retained(posts[1..], dir);
      if p.userId in dir {
        PostsOfCons(ScoredPost(p, PostScore(m, now, p, viewer, dir[p.userId], draws[0])), rest);
      }
    }
  }

  /** Prepending one candidate prepends its post. */
  lemma PostsOfCons(sp: ScoredPost, rest: seq<ScoredPost>)
    ensures Posts([sp] + rest) == [sp.post] + Posts(rest)
  {
    PostsAppend([sp], rest);
    assert Posts([sp]) == [sp.post];
  }

  /** Every candidate is a retained post paired with `calculatePostScore`'s
      score for it against its directory author, using the draw at the post's
      own position. */
  lemma {:induction false} ScoreAllScores(m: MathLib, now: int, posts: seq<Post>, viewer: Option<User>,
                                          dir: map<int, User>, draws: seq<real>)
    requires Sound(m)
    requires |draws| == |posts|
    requires AllDraws(draws)
    ensures forall sp :: sp in ScoreAll(m, now, posts, viewer, dir, draws) ==>
      (exists j :: (0 <= j < |posts| && posts[j].userId in dir
                    && sp == ScoredPost(posts[j], CalculatePostScore(m, now, posts[j], viewer, dir[posts[j].userId], draws[j]).score)))
    decreases |posts|
  {
    if posts != [] {
      var rest := ScoreAll(m, now, posts[1..], viewer, dir, draws[1..]);
      ScoreAllScores(m, now, posts[1..], viewer, dir, draws[1..]);
      forall sp | sp in ScoreAll(m, now, posts, viewer, dir, draws)
        ensures exists j :: (0 <= j < |posts| && posts[j].userId in dir
                             && sp == ScoredPost(posts[j], CalculatePostScore(m, now, posts[j], viewer, dir[posts[j].userId], draws[j]).score))
      {
        if sp in rest {
          var j :| 0 <= j < |posts[1..]| && posts[1..][j].userId in dir
                   && sp == ScoredPost(posts[1..][j], CalculatePostScore(m, now, posts[1..][j], viewer, dir[posts[1..][j].userId], draws[1..][j]).score);
          assert posts[1..][j] == posts[j + 1] && draws[1..][j] == draws[j + 1];
        } else {
          assert sp == ScoredPost(posts[0], CalculatePostScore(m, now, posts[0], viewer, dir[posts[0].userId], draws[0]).score);
        }
      }
    }
  }

  /** The ranked candidates with their diversity-adjusted scores: ordered by
      non-increasing adjusted score, a reordering of the diversity pass's
      output, and holding exactly the retained posts. */
  function RankScored(m: MathLib, now: int, posts: seq<Post>, viewer: Option<User>,
                      users: seq<User>, draws: seq<real>): (r: seq<ScoredPost>)
    requires Sound(m)
    requires |draws| == |posts|
    requires AllDraws(draws)
    ensures NonIncreasing(r)
    ensures multiset(r) == multiset(Diversify(SortByScoreDesc(ScoreAll(m, now, posts, viewer, UserMap(users), draws))))
    ensures multiset(Posts(r)) == multiset(Retained(posts, UserMap(users)))
    ensures |r| == |Retained(posts, UserMap(users))|
  {
    var scored := ScoreAll(m, now, posts, viewer, UserMap(users), draws);
    ScoreAllPosts(m, now, posts, viewer, UserMap(users), draws);
    var sorted := SortByScoreDesc(scored);
    var adjusted := Diversify(sorted);
    var ranked := SortByScoreDesc(adjusted);
    PostsOfPermutation(sorted, scored);
    PostsOfPermutation(ranked, adjusted);
    ranked
  }

  /** The ranked feed. A post appears exactly as often as in the input when its
      author is in the directory and never otherwise; so an empty post list or
      an empty directory gives an empty feed. */
  function RankFeed(m: MathLib, now: int, posts: seq<Post>, viewer: Option<User>,
                    users: seq<User>, draws: seq<real>): (r: seq<Post>)
    requires Sound(m)
    requires |draws| == |posts|
    requires AllDraws(draws)
    ensures forall p :: multiset(r)[p] == if p.userId in UserIds(users) then multiset(posts)[p] else 0
    ensures forall p :: p in r ==> p in posts && p.userId in UserIds(users)
    ensures |r| == |Retained(posts, UserMap(users))|
    ensures posts == [] || users == [] ==> r == []
    ensures exists ranked :: (NonIncreasing(ranked) && Posts(ranked) == r
                              && multiset(ranked) == multiset(Diversify(SortByScoreDesc(
                                   ScoreAll(m, now, posts, viewer, UserMap(users), draws)))))
  {
    var ranked := RankScored(m, now, posts, viewer, users, draws);
    var r := Posts(ranked);
    assert NonIncreasing(ranked) && Posts(ranked) == r;
    assert forall p :: p in r ==> multiset(r)[p] > 0;
    r
  }
}
