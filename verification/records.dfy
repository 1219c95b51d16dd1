/** The two records the ranking engine reads, restricted to the fields it uses. */
module Records {
  import opened Wrappers

  /** A post. Timestamps are milliseconds since the epoch, already parsed;
      `createdAt == None` stands for an empty (falsy) `created_at` string.
      `reactions` and `comments` are the lengths of the source's arrays. */
  datatype Post = Post(
    userId: int,
    createdAt: Option<int>,
    reactions: nat,
    comments: nat,
    shares: nat,
    views: Option<nat>,
    tags: Option<seq<string>>)

  /** A user, acting either as the viewer or as a post's author.
      `followers` and `following` are arrays of user ids. */
  datatype User = User(
    id: int,
    followers: seq<int>,
    following: seq<int>,
    createdAt: Option<int>,
    interests: Option<seq<string>>)

  /** `post.views || 0`: a missing view count (or zero) counts as zero. */
  function ViewCount(p: Post): (v: nat)
    ensures p.views.None? ==> v == 0
    ensures p.views.Some? ==> v == p.views.value
  {
    p.views.GetOr(0)
  }
}
