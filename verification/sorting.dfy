/** `sort((a, b) => b.score - a.score)`: a stable sort into non-increasing
    score order. JavaScript's `Array.prototype.sort` is stable, so posts with
    equal scores keep their relative order; the properties stated here are
    only that the result is ordered and is a permutation of the input. */
module Sorting {
  import opened Records
  import opened Scorer

  /** Scores never increase along the sequence. */
  ghost predicate NonIncreasing(s: seq<ScoredPost>) {
    forall i, j :: 0 <= i < j < |s| ==> s[i].score >= s[j].score
  }

  /** The posts of a sequence of scored posts, in order (`map(sp => sp.post)`). */
  function Posts(s: seq<ScoredPost>): (ps: seq<Post>)
    ensures |ps| == |s|
    ensures forall i :: 0 <= i < |s| ==> ps[i] == s[i].post
  {
    seq(|s|, i requires 0 <= i < |s| => s[i].post)
  }

  /** Places `x` in front of the first element it scores at least as high as,
      so that `x` precedes the equal-scored elements of `s`. */
  function Insert(x: ScoredPost, s: seq<ScoredPost>): (r: seq<ScoredPost>)
    requires NonIncreasing(s)
    ensures |r| == |s| + 1
    ensures multiset(r) == multiset(s) + multiset{x}
    ensures r[0] == x || (|s| > 0 && r[0] == s[0])
    ensures NonIncreasing(r)
  {
    if s == [] || x.score >= s[0].score then
      ConsNonIncreasing(x, s);
      [x] + s
    else
      var t := Insert(x, s[1..]);
      InsertBehindHead(x, s, t);
      [s[0]] + t
  }

  /** When `x` goes behind the head of `s`, keeping the head in front of the
      insertion into the tail keeps the order and adds exactly `x`. */
  lemma InsertBehindHead(x: ScoredPost, s: seq<ScoredPost>, t: seq<ScoredPost>)
    requires NonIncreasing(s) && |s| > 0 && x.score < s[0].score
    requires NonIncreasing(t)
    requires multiset(t) == multiset(s[1..]) + multiset{x}
    requires t[0] == x || (|s| > 1 && t[0] == s[1])
    ensures NonIncreasing([s[0]] + t)
    ensures multiset([s[0]] + t) == multiset(s) + multiset{x}
  {
    assert s == [s[0]] + s[1..];
    ConsNonIncreasing(s[0], t);
  }

  /** A head at least as high as the first element extends an ordered tail. */
  lemma ConsNonIncreasing(h: ScoredPost, t: seq<ScoredPost>)
    requires NonIncreasing(t)
    requires |t| > 0 ==> h.score >= t[0].score
    ensures NonIncreasing([h] + t)
  {
  }

  /** Insertion sort, descending by score, stable. */
  function SortByScoreDesc(s: seq<ScoredPost>): (r: seq<ScoredPost>)
    ensures |r| == |s|
    ensures multiset(r) == multiset(s)
    ensures NonIncreasing(r)
  {
    if s == [] then []
    else
      assert s == [s[0]] + s[1..];
      Insert(s[0], SortByScoreDesc(s[1..]))
  }

  lemma PostsAppend(a: seq<ScoredPost>, b: seq<ScoredPost>)
    ensures Posts(a + b) == Posts(a) + Posts(b)
  {
  }

  /** Reordering scored posts reorders their posts the same way. */
  lemma {:induction false} PostsOfPermutation(a: seq<ScoredPost>, b: seq<ScoredPost>)
    requires multiset(a) == multiset(b)
    ensures multiset(Posts(a)) == multiset(Posts(b))
    decreases |a|
  {
    if a == [] {
      assert |b| == |multiset(b)| == 0;
    } else {
      var x := a[0];
      assert x in multiset(b);
      var k :| 0 <= k < |b| && b[k] == x;
      var b' := RemoveAt(b, k);
      RemoveAtMultiset(a, 0);
      RemoveAtMultiset(b, k);
      assert RemoveAt(a, 0) == a[1..];
      PostsOfPermutation(a[1..], b');
      RemoveAtPosts(a, 0);
      RemoveAtPosts(b, k);
    }
  }

  function RemoveAt<T>(s: seq<T>, k: nat): seq<T>
    requires k < |s|
  {
    s[..k] + s[k+1..]
  }

  lemma RemoveAtMultiset<T>(s: seq<T>, k: nat)
    requires k < |s|
    ensures multiset(RemoveAt(s, k)) == multiset(s) - multiset{s[k]}
  {
    assert s == s[..k] + [s[k]] + s[k+1..];
  }

  lemma RemoveAtPosts(s: seq<ScoredPost>, k: nat)
    requires k < |s|
    ensures multiset(Posts(s)) == multiset(Posts(RemoveAt(s, k))) + multiset{s[k].post}
  {
    var ps := Posts(s);
    assert ps == ps[..k] + [s[k].post] + ps[k+1..];
    assert Posts(RemoveAt(s, k)) == ps[..k] + ps[k+1..];
  }
}
