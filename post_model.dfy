/** The post and user values of the app (`PostModel`, `User`). */
module PostModels {
  import opened Wrappers
  import opened Strings

  /** `struct User`: `id` and `name` are immutable, the picture URL is optional. */
  datatype User = User(id: string, name: string, profilePictureURL: Option<string>)

  /** `struct PostModel`; `isLikedByCurrentUser` is local to the client and never stored. */
  datatype PostModel = PostModel(
    id: string,
    user: User,
    fileName: string,
    caption: string,
    isLikedByCurrentUser: bool)

  /** The memberwise initialiser `PostModel(id:user:)`, which leaves every other field at its default. */
  function NewPost(id: string, user: User): (p: PostModel)
    ensures p.id == id && p.user == user
    ensures p.fileName == "" && p.caption == ""
    ensures !p.isLikedByCurrentUser
  {
    PostModel(id, user, "", "", false)
  }

  const VideosPrefix: string := "videos/"

  /**
   * `videoChildPath`: the storage key of the post's video. It splits back
   * into the fixed prefix, the owner's lower-cased name, a slash and the
   * file name.
   */
  function VideoChildPath(p: PostModel): (path: string)
    ensures |path| == |VideosPrefix| + |p.user.name| + 1 + |p.fileName|
    ensures path[..|VideosPrefix|] == VideosPrefix
    ensures path[|VideosPrefix|..|VideosPrefix| + |p.user.name|] == Lower(p.user.name)
    ensures path[|VideosPrefix| + |p.user.name|] == '/'
    ensures path[|VideosPrefix| + |p.user.name| + 1..] == p.fileName
  {
    var path := VideosPrefix + Lower(p.user.name) + "/" + p.fileName;
    assert path[|VideosPrefix|..|VideosPrefix| + |p.user.name|] == Lower(p.user.name);
    path
  }

  /**
   * The path depends on the owner's name only up to case: two posts with
   * the same file name whose owners' names differ only in case share one
   * key, and for owners' names of the same length the key determines the
   * file name and the lower-cased owner.
   */
  lemma VideoChildPathKey(p: PostModel, q: PostModel)
    requires |p.user.name| == |q.user.name|
    ensures VideoChildPath(p) == VideoChildPath(q)
        <==> Lower(p.user.name) == Lower(q.user.name) && p.fileName == q.fileName
  {
    var a, b := VideoChildPath(p), VideoChildPath(q);
    var n := |VideosPrefix| + |p.user.name|;
    if a == b {
      assert Lower(p.user.name) == a[|VideosPrefix|..n] == Lower(q.user.name);
      assert p.fileName == a[n + 1..] == q.fileName;
    }
  }

  /** An owner whose name has no upper-case letter appears in the path exactly as written. */
  lemma VideoChildPathOfLowercaseOwner(p: PostModel)
    requires forall i :: 0 <= i < |p.user.name| ==> !IsUpperAscii(p.user.name[i])
    ensures VideoChildPath(p) == VideosPrefix + p.user.name + "/" + p.fileName
  {
    LowerOfLowercase(p.user.name);
  }

  /** The unit test of the post model, first half: a new post's caption is empty and an assigned caption sticks. */
  lemma TestPostCaption(id: string, user: User)
    ensures var post := NewPost(id, user);
      && post.caption == ""
      && post.(caption := "Hello, world!").caption == "Hello, world!"
      && post.(caption := "Hello, world!").caption != ""
  {
  }

  /** The path text the unit test expects, assembled from its parts. */
  lemma BillgatesPathText(user: User)
    requires user == User("123", "billgates", None)
    ensures VideosPrefix + user.name + "/" + "" == "videos/billgates/"
  {
  }

  /** The unit test of the post model, second half: the path of a new post by "billgates". */
  lemma TestPostChildPath(id: string, user: User)
    requires user == User("123", "billgates", None)
    ensures VideoChildPath(NewPost(id, user)) == "videos/billgates/"
  {
    VideoChildPathOfLowercaseOwner(NewPost(id, user));
    BillgatesPathText(user);
  }

  const MockOwnerName: string := "kanyewest"

  /**
   * `mockModels()`: 101 fresh posts (the loop runs over `0...100`), each
   * owned by a new user named "kanyewest". The UUIDs the source draws are
   * taken from `postIds` and `userIds`, indexed by loop iteration.
   */
  method MockModels(postIds: nat -> string, userIds: nat -> string) returns (posts: seq<PostModel>)
    ensures |posts| == 101
    ensures forall i :: 0 <= i < |posts| ==>
      posts[i] == NewPost(postIds(i), User(userIds(i), MockOwnerName, None))
  {
    posts := [];
    for i := 0 to 101
      invariant |posts| == i
      invariant forall j :: 0 <= j < i ==>
        posts[j] == NewPost(postIds(j), User(userIds(j), MockOwnerName, None))
    {
      var post := NewPost(postIds(i), User(userIds(i), MockOwnerName, None));
      posts := posts + [post];
    }
  }
}
