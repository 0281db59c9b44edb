/**
 * The vertical pager of the home feed (`HomeViewController`): which post
 * is shown above and below the current one, and which of the two feeds
 * the pager reads.
 */
module Home {
  import opened Wrappers
  import opened PostModels

  /** `currentPosts`: the "Following" feed while the horizontal offset is zero, the "For You" feed otherwise. */
  function CurrentPosts(offsetIsZero: bool, followingPosts: seq<PostModel>, forYouPosts: seq<PostModel>): (posts: seq<PostModel>)
    ensures offsetIsZero ==> posts == followingPosts
    ensures !offsetIsZero ==> posts == forYouPosts
  {
    if offsetIsZero then followingPosts else forYouPosts
  }

  /** `firstIndex(where: { $0.id == id })` */
  function FirstIndex(posts: seq<PostModel>, id: string): (r: Option<nat>)
    ensures r.None? <==> forall j :: 0 <= j < |posts| ==> posts[j].id != id
    ensures r.Some? ==> r.value < |posts| && posts[r.value].id == id
    ensures r.Some? ==> forall j :: 0 <= j < r.value ==> posts[j].id != id
  {
    if posts == [] then None
    else if posts[0].id == id then Some(0)
    else match FirstIndex(posts[1..], id)
      case None => None
      case Some(i) => Some(i + 1)
  }

  /**
   * `viewControllerBefore`: nothing when the page shows no post, when its
   * post is not in `posts`, or when it is the first; otherwise the post
   * just before its first occurrence.
   */
  function PostBefore(posts: seq<PostModel>, from: Option<PostModel>): (r: Option<PostModel>)
    ensures from.None? ==> r.None?
    ensures r.Some? ==> |posts| >= 2 && r.value in posts[..|posts| - 1]
  {
    match from
    case None => None
    case Some(p) =>
      match FirstIndex(posts, p.id)
      case None => None
      case Some(index) => if index == 0 then None else Some(posts[index - 1])
  }

  /**
   * `viewControllerAfter`: nothing when the page shows no post, when its
   * post is not in `posts`, or when it is the last; otherwise the post just
   * after its first occurrence.
   */
  function PostAfter(posts: seq<PostModel>, from: Option<PostModel>): (r: Option<PostModel>)
    ensures from.None? ==> r.None?
    ensures r.Some? ==> |posts| >= 2 && r.value in posts[1..]
  {
    match from
    case None => None
    case Some(p) =>
      match FirstIndex(posts, p.id)
      case None => None
      case Some(index) => if index < |posts| - 1 then Some(posts[index + 1]) else None
  }

  /** No post in `posts` shares an id with another. */
  predicate UniqueIds(posts: seq<PostModel>)
  {
    forall i, j :: 0 <= i < j < |posts| ==> posts[i].id != posts[j].id
  }

  /**
   * What `PostBefore` answers, stated without `FirstIndex`'s recursion: a
   * post exactly when some earlier position than every match of the id
   * exists, and then the one right before the first match.
   */
  lemma PostBeforeSpec(posts: seq<PostModel>, p: PostModel)
    ensures PostBefore(posts, Some(p)).Some? <==>
      exists i :: 0 < i < |posts| && posts[i].id == p.id && posts[0].id != p.id
    ensures PostBefore(posts, Some(p)).Some? ==>
      exists i :: 0 < i < |posts| && posts[i].id == p.id
        && (forall j :: 0 <= j < i ==> posts[j].id != p.id)
        && PostBefore(posts, Some(p)) == Some(posts[i - 1])
  {
    match FirstIndex(posts, p.id)
    case None =>
    case Some(index) =>
      if index == 0 {
        assert posts[0].id == p.id;
      }
  }

  /**
   * What `PostAfter` answers: a post exactly when the id occurs before the
   * last position, and then the one right after the first match.
   */
  lemma PostAfterSpec(posts: seq<PostModel>, p: PostModel)
    ensures PostAfter(posts, Some(p)).Some? <==>
      exists i :: 0 <= i < |posts| - 1 && posts[i].id == p.id
    ensures PostAfter(posts, Some(p)).Some? ==>
      exists i :: 0 <= i < |posts| - 1 && posts[i].id == p.id
        && (forall j :: 0 <= j < i ==> posts[j].id != p.id)
        && PostAfter(posts, Some(p)) == Some(posts[i + 1])
  {
    match FirstIndex(posts, p.id)
    case None =>
    case Some(index) =>
  }

  /**
   * With unique ids, paging down and then up comes back to the page one
   * started from, and so does paging up and then down.
   */
  lemma PagingRoundTrip(posts: seq<PostModel>, i: nat)
    requires UniqueIds(posts)
    requires i < |posts|
    ensures i < |posts| - 1 ==> PostAfter(posts, Some(posts[i])) == Some(posts[i + 1])
    ensures i < |posts| - 1 ==> PostBefore(posts, PostAfter(posts, Some(posts[i]))) == Some(posts[i])
    ensures i > 0 ==> PostBefore(posts, Some(posts[i])) == Some(posts[i - 1])
    ensures i > 0 ==> PostAfter(posts, PostBefore(posts, Some(posts[i]))) == Some(posts[i])
  {
    FirstIndexOfUnique(posts, i);
    if i < |posts| - 1 {
      FirstIndexOfUnique(posts, i + 1);
    }
    if i > 0 {
      FirstIndexOfUnique(posts, i - 1);
    }
  }

  /** With unique ids, the first index of a post's id is that post's position. */
  lemma FirstIndexOfUnique(posts: seq<PostModel>, i: nat)
    requires UniqueIds(posts)
    requires i < |posts|
    ensures FirstIndex(posts, posts[i].id) == Some(i)
  {
  }

  /**
   * Without unique ids the pager loses its place: when the first and third
   * posts share an id, the page after the third is the second again and
   * there is no page before the third.
   */
  lemma DuplicateIdsRevisit(a: PostModel, b: PostModel)
    requires a.id != b.id
    ensures PostAfter([a, b, a], Some(a)) == Some(b)
    ensures PostBefore([a, b, a], Some(a)) == None
  {
    assert FirstIndex([a, b, a], a.id) == Some(0);
  }
}
