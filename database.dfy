/**
 * The document-store façade (`DatabaseManager`). The hosted tree under
 * `users` is an in-memory map from the path segment after `users/` to the
 * record stored there; every read is a pure function of a snapshot of that
 * map and every write is a method of `DatabaseManager` that replaces the
 * addressed subtree. Requests run one after another; whether the store
 * accepts a write is a parameter, and what a completion handler receives is
 * a `Callback` value.
 */
module Database {
  import opened Wrappers
  import opened Strings
  import opened PostModels
  import NotificationModels

  /** `UserListViewController.ListType`; its raw value is the path segment below `users/{name}`. */
  datatype ListType = Followers | Following

  function RawValue(t: ListType): (raw: string)
    ensures raw == "followers" <==> t == Followers
    ensures raw == "following" <==> t == Following
  {
    match t
    case Followers => "followers"
    case Following => "following"
  }

  /** One entry of `users/{name}/posts`: a dictionary from which either key may be missing. */
  datatype PostEntry = PostEntry(name: Option<string>, caption: Option<string>)

  /** The subtree `users/{name}`; each child may be absent. */
  datatype UserRecord = UserRecord(
    email: Option<string>,
    posts: Option<seq<PostEntry>>,
    followers: Option<seq<string>>,
    following: Option<seq<string>>)

  /** What a read of a path that holds nothing sees. */
  const AbsentRecord := UserRecord(None, None, None, None)

  /** The `users` node keyed by user path segment; the empty map is an absent node. */
  type Users = map<string, UserRecord>

  function RecordAt(users: Users, key: string): UserRecord
  {
    if key in users then users[key] else AbsentRecord
  }

  /** The value at `users/{key}/{t.rawValue}`. */
  function ListAt(users: Users, key: string, t: ListType): Option<seq<string>>
  {
    match t
    case Followers => RecordAt(users, key).followers
    case Following => RecordAt(users, key).following
  }

  function WithList(r: UserRecord, t: ListType, names: seq<string>): UserRecord
  {
    match t
    case Followers => r.(followers := Some(names))
    case Following => r.(following := Some(names))
  }

  // ----- insertUser -----

  /** The record `insertUser` writes for a user: the email and nothing else. */
  function NewUserRecord(email: string): UserRecord
  {
    UserRecord(Some(email), None, None, None)
  }

  /** The `users` node after a successful `insertUser`: the user's whole record is replaced. */
  function UsersAfterInsertUser(users: Users, email: string, username: string): (r: Users)
    ensures r.Keys == users.Keys + {username}
    ensures r[username] == NewUserRecord(email)
    ensures forall u :: u in users && u != username ==> r[u] == users[u]
  {
    users[username := NewUserRecord(email)]
  }

  // ----- insertPost -----

  /** The record after `posts.append(newEntry)` (or `[newEntry]` when there is no list). */
  function RecordWithPost(r: UserRecord, fileName: string, caption: string): (r': UserRecord)
    ensures r'.posts.Some? && |r'.posts.value| == |r.posts.GetOr([])| + 1
    ensures r'.posts.value[..|r'.posts.value| - 1] == r.posts.GetOr([])
    ensures r'.posts.value[|r'.posts.value| - 1] == PostEntry(Some(fileName), Some(caption))
    ensures r'.email == r.email && r'.followers == r.followers && r'.following == r.following
  {
    var posts := r.posts.GetOr([]) + [PostEntry(Some(fileName), Some(caption))];
    assert posts[..|posts| - 1] == r.posts.GetOr([]);
    r.(posts := Some(posts))
  }

  // ----- getPosts -----

  /** One element of the `compactMap` in `getPosts`: missing keys become "". */
  function PostFromEntry(e: PostEntry, id: string, user: User): (p: PostModel)
    ensures p.id == id && p.user == user && !p.isLikedByCurrentUser
    ensures e.name.Some? ==> p.fileName == e.name.value
    ensures e.name.None? ==> p.fileName == ""
    ensures e.caption.Some? ==> p.caption == e.caption.value
    ensures e.caption.None? ==> p.caption == ""
  {
    PostModel(id, user, e.name.GetOr(""), e.caption.GetOr(""), false)
  }

  /** The `compactMap` over stored entries; the `i`-th model gets the identifier `ids(from + i)`. */
  function PostsFromEntries(entries: seq<PostEntry>, user: User, ids: nat -> string, from: nat): (r: seq<PostModel>)
    ensures |r| == |entries|
    ensures forall i :: 0 <= i < |entries| ==> r[i] == PostFromEntry(entries[i], ids(from + i), user)
    decreases |entries|
  {
    if entries == [] then []
    else [PostFromEntry(entries[0], ids(from), user)] + PostsFromEntries(entries[1..], user, ids, from + 1)
  }

  /**
   * `getPosts(for:)`: reads `users/{lowercased name}/posts`, one model per
   * stored entry, in order. A fresh UUID is drawn per model; the model takes
   * them from `ids`.
   */
  function GetPosts(users: Users, user: User, ids: nat -> string): (posts: seq<PostModel>)
    ensures RecordAt(users, Lower(user.name)).posts.None? ==> posts == []
    ensures |posts| == |RecordAt(users, Lower(user.name)).posts.GetOr([])|
    ensures forall i :: 0 <= i < |posts| ==>
      posts[i] == PostFromEntry(RecordAt(users, Lower(user.name)).posts.value[i], ids(i), user)
  {
    match RecordAt(users, Lower(user.name)).posts
    case None => []
    case Some(entries) => PostsFromEntries(entries, user, ids, 0)
  }

  // ----- getRelationships / isValidRelationship -----

  /** `getRelationships(for:type:)`: the stored list at `users/{lowercased name}/{type}`, or `[]`. */
  function GetRelationships(users: Users, user: User, t: ListType): (names: seq<string>)
    ensures ListAt(users, Lower(user.name), t).Some? ==> names == ListAt(users, Lower(user.name), t).value
    ensures ListAt(users, Lower(user.name), t).None? ==> names == []
  {
    ListAt(users, Lower(user.name), t).GetOr([])
  }

  /**
   * `isValidRelationship(for:type:)`: with no session it returns before
   * calling back; otherwise it answers whether the lower-cased session name
   * is in the list `getRelationships` would return.
   */
  function IsValidRelationship(users: Users, session: Option<string>, user: User, t: ListType): (reply: Callback<bool>)
    ensures reply == Silent <==> session.None?
    ensures reply == Called(true) <==> session.Some? && Lower(session.value) in GetRelationships(users, user, t)
    ensures ListAt(users, Lower(user.name), t).None? && session.Some? ==> reply == Called(false)
  {
    match session
    case None => Silent
    case Some(s) =>
      match ListAt(users, Lower(user.name), t)
      case None => Called(false)
      case Some(names) => Called(Lower(s) in names)
  }

  // ----- updateRelationship -----

  /** One read-append-write of a relationship list; the list (and the record) is created when absent. */
  function Appended(users: Users, key: string, t: ListType, name: string): (r: Users)
    ensures r.Keys == users.Keys + {key}
    ensures ListAt(r, key, t) == Some(ListAt(users, key, t).GetOr([]) + [name])
    ensures forall t' :: t' != t ==> ListAt(r, key, t') == ListAt(users, key, t')
    ensures RecordAt(r, key).email == RecordAt(users, key).email
    ensures RecordAt(r, key).posts == RecordAt(users, key).posts
    ensures forall k :: k in users && k != key ==> r[k] == users[k]
  {
    users[key := WithList(RecordAt(users, key), t, ListAt(users, key, t).GetOr([]) + [name])]
  }

  /** `names.removeAll(where: { $0 == name })`: drops every exact match and keeps the rest in order. */
  function RemoveAll(names: seq<string>, name: string): (r: seq<string>)
    ensures name !in r
    ensures multiset(r) == multiset(names)[name := 0]
    ensures name !in names ==> r == names
  {
    if names == [] then []
    else
      var rest := RemoveAll(names[1..], name);
      assert names == [names[0]] + names[1..];
      if names[0] == name then rest else [names[0]] + rest
  }

  /** One read-remove-write of a relationship list; nothing is written when the list is absent. */
  function Removed(users: Users, key: string, t: ListType, name: string): (r: Users)
    ensures ListAt(users, key, t).None? ==> r == users
    ensures ListAt(users, key, t).Some? ==>
      r.Keys == users.Keys && ListAt(r, key, t) == Some(RemoveAll(ListAt(users, key, t).value, name))
    ensures forall t' :: t' != t ==> ListAt(r, key, t') == ListAt(users, key, t')
    ensures RecordAt(r, key).email == RecordAt(users, key).email
    ensures RecordAt(r, key).posts == RecordAt(users, key).posts
    ensures forall k :: k in users && k != key ==> r[k] == users[k]
  {
    match ListAt(users, key, t)
    case None => users
    case Some(names) => users[key := WithList(users[key], t, RemoveAll(names, name))]
  }

  /**
   * The `users` node after a follow of `target` by `me` (both already
   * lower-cased): first the append to `me`'s following list, then the
   * append to `target`'s followers list; a side whose write the store
   * rejects leaves the node as it was.
   */
  function UsersAfterFollow(users: Users, me: string, target: string, followingAccepts: bool, followersAccepts: bool): (r: Users)
    ensures r.Keys == users.Keys + (if followingAccepts then {me} else {}) + (if followersAccepts then {target} else {})
    ensures followingAccepts ==> ListAt(r, me, Following).Some?
    ensures followersAccepts ==> ListAt(r, target, Followers).Some?
  {
    var u := if followingAccepts then Appended(users, me, Following, target) else users;
    if followersAccepts then Appended(u, target, Followers, me) else u
  }

  /** The `users` node after an unfollow, in the same order as `UsersAfterFollow`. */
  function UsersAfterUnfollow(users: Users, me: string, target: string, followingAccepts: bool, followersAccepts: bool): (r: Users)
    ensures r.Keys == users.Keys
    ensures ListAt(r, me, Following).Some? <==> ListAt(users, me, Following).Some?
    ensures ListAt(r, target, Followers).Some? <==> ListAt(users, target, Followers).Some?
  {
    var u := if followingAccepts then Removed(users, me, Following, target) else users;
    if followersAccepts then Removed(u, target, Followers, me) else u
  }

  /** The reply of one side of an unfollow: no callback at all when the list is absent. */
  function UnfollowReply(users: Users, key: string, t: ListType, accepts: bool): (reply: Callback<bool>)
    ensures reply == Silent <==> ListAt(users, key, t).None?
    ensures reply.Called? ==> reply.value == accepts
  {
    if ListAt(users, key, t).Some? then Called(accepts) else Silent
  }

  /**
   * `DatabaseManager`: the shared store handle. `users` is the hosted
   * `users` node and `session` the `username` value in `UserDefaults`,
   * which the façade reads but never writes.
   */
  class DatabaseManager {
    var users: Users
    var session: Option<string>

    constructor (users: Users, session: Option<string>)
      ensures this.users == users && this.session == session
    {
      this.users := users;
      this.session := session;
    }

    /**
     * `insertUser(with:username:)`: creates the `users` node holding only this
     * user when the node is absent, and otherwise overwrites `users/{username}`
     * with the email alone. Reports whether the store accepted the write.
     */
    method InsertUser(email: string, username: string, storeAccepts: bool) returns (ok: bool)
      modifies this
      ensures ok == storeAccepts
      ensures users == if storeAccepts then UsersAfterInsertUser(old(users), email, username) else old(users)
      ensures session == old(session)
    {
      var written: Users;
      if users == map[] {
        written := map[username := NewUserRecord(email)];
      } else {
        var usersDictionary := users;
        usersDictionary := usersDictionary[username := NewUserRecord(email)];
        written := usersDictionary;
      }
      if storeAccepts {
        users := written;
      }
      ok := storeAccepts;
    }

    /**
     * `getUsername(for:)`: calls back with `nil` when the `users` node is
     * absent; otherwise walks the users in unspecified order and calls back
     * with the first whose email matches, and never calls back when none
     * matches.
     */
    method GetUsername(email: string) returns (reply: Callback<Option<string>>)
      ensures reply == Called(None) <==> users == map[]
      ensures reply.Called? && reply.value.Some? ==>
        reply.value.value in users && users[reply.value.value].email == Some(email)
      ensures reply == Silent <==> users != map[] && forall u :: u in users ==> users[u].email != Some(email)
    {
      if users == map[] {
        return Called(None);
      }
      var remaining := users.Keys;
      while remaining != {}
        invariant remaining <= users.Keys
        invariant forall u :: u in users && u !in remaining ==> users[u].email != Some(email)
        decreases remaining
      {
        var username :| username in remaining;
        if users[username].email == Some(email) {
          return Called(Some(username));
        }
        remaining := remaining - {username};
      }
      reply := Silent;
    }

    /**
     * `insertPost(fileName:caption:)`: fails without writing when there is no
     * session or nothing at `users/{session}` (the raw session name, not
     * lower-cased); otherwise appends the entry to that record's posts and
     * writes the whole record back.
     */
    method InsertPost(fileName: string, caption: string, storeAccepts: bool) returns (ok: bool)
      modifies this
      ensures session == old(session)
      ensures ok <==> session.Some? && session.value in old(users) && storeAccepts
      ensures ok ==> users == old(users)[session.value := RecordWithPost(old(users)[session.value], fileName, caption)]
      ensures !ok ==> users == old(users)
    {
      if session.None? {
        return false;
      }
      var username := session.value;
      if username !in users {
        return false;
      }
      var value := users[username];
      var newEntry := PostEntry(Some(fileName), Some(caption));
      if value.posts.Some? {
        var posts := value.posts.value;
        posts := posts + [newEntry];
        value := value.(posts := Some(posts));
      } else {
        value := value.(posts := Some([newEntry]));
      }
      if storeAccepts {
        users := users[username := value];
      }
      ok := storeAccepts;
    }

    /** `getNotifications`: the mock list, whatever the store holds. */
    method GetNotifications(ids: nat -> string, dates: nat -> NotificationModels.Date)
      returns (ns: seq<NotificationModels.Notification>)
      ensures NotificationModels.IsMockData(ns)
      ensures forall i :: 0 <= i < |ns| ==> fresh(ns[i])
      ensures forall i, j :: 0 <= i < j < |ns| ==> ns[i] != ns[j]
    {
      ns := NotificationModels.MockData(ids, dates);
    }

    /** `markNotificationAsHidden(notificationID:)`: always reports success and writes nothing. */
    method MarkNotificationAsHidden(notificationID: string) returns (ok: bool)
      ensures ok
    {
      ok := true;
    }

    /**
     * `updateRelationship(for:follow:)`: nothing happens without a session.
     * A follow appends the target's lower-cased name to the session user's
     * `following` and the session user to the target's `followers`, creating
     * each list when absent and never checking for duplicates. An unfollow
     * removes every exact match from both lists; a side whose list is absent
     * writes nothing and never calls back. The two replies are the two
     * invocations of the completion handler.
     */
    method UpdateRelationship(user: User, follow: bool, followingAccepts: bool, followersAccepts: bool)
      returns (followingReply: Callback<bool>, followersReply: Callback<bool>)
      modifies this
      ensures session == old(session)
      ensures old(session).None? ==>
        users == old(users) && followingReply == Silent && followersReply == Silent
      ensures old(session).Some? && follow ==>
        && users == UsersAfterFollow(old(users), Lower(old(session).value), Lower(user.name), followingAccepts, followersAccepts)
        && followingReply == Called(followingAccepts)
        && followersReply == Called(followersAccepts)
      ensures old(session).Some? && !follow ==>
        && users == UsersAfterUnfollow(old(users), Lower(old(session).value), Lower(user.name), followingAccepts, followersAccepts)
        && followingReply == UnfollowReply(old(users), Lower(old(session).value), Following, followingAccepts)
        && followersReply == UnfollowReply(old(users), Lower(user.name), Followers, followersAccepts)
    {
      if session.None? {
        return Silent, Silent;
      }
      var currentUserName := Lower(session.value);
      var target := Lower(user.name);
      if follow {
        followingReply, followersReply := FollowWrites(currentUserName, target, followingAccepts, followersAccepts);
      } else {
        followingReply, followersReply := UnfollowWrites(currentUserName, target, followingAccepts, followersAccepts);
      }
    }

    /** The follow branch of `updateRelationship`: two appends, each reporting whether the store accepted it. */
    method FollowWrites(me: string, target: string, followingAccepts: bool, followersAccepts: bool)
      returns (followingReply: Callback<bool>, followersReply: Callback<bool>)
      modifies this
      ensures session == old(session)
      ensures users == UsersAfterFollow(old(users), me, target, followingAccepts, followersAccepts)
      ensures followingReply == Called(followingAccepts) && followersReply == Called(followersAccepts)
    {
      // users/{me}/following
      var current := ListAt(users, me, Following);
      var written := if current.Some? then current.value + [target] else [target];
      assert written == current.GetOr([]) + [target];
      if followingAccepts {
        users := users[me := WithList(RecordAt(users, me), Following, written)];
      }
      followingReply := Called(followingAccepts);
      ghost var afterFollowing := users;
      assert afterFollowing == if followingAccepts then Appended(old(users), me, Following, target) else old(users);
      // users/{target}/followers
      var currentFollowers := ListAt(users, target, Followers);
      var writtenFollowers := if currentFollowers.Some? then currentFollowers.value + [me] else [me];
      assert writtenFollowers == currentFollowers.GetOr([]) + [me];
      if followersAccepts {
        users := users[target := WithList(RecordAt(users, target), Followers, writtenFollowers)];
      }
      followersReply := Called(followersAccepts);
      assert users == if followersAccepts then Appended(afterFollowing, target, Followers, me) else afterFollowing;
    }

    /**
     * The unfollow branch of `updateRelationship`: each side whose list
     * exists loses every copy of the other name and reports whether the
     * store accepted the write; a side whose list is absent stays silent.
     */
    method UnfollowWrites(me: string, target: string, followingAccepts: bool, followersAccepts: bool)
      returns (followingReply: Callback<bool>, followersReply: Callback<bool>)
      modifies this
      ensures session == old(session)
      ensures users == UsersAfterUnfollow(old(users), me, target, followingAccepts, followersAccepts)
      ensures followingReply == UnfollowReply(old(users), me, Following, followingAccepts)
      ensures followersReply == UnfollowReply(old(users), target, Followers, followersAccepts)
    {
      var current := ListAt(users, me, Following);
      followingReply := Silent;
      if current.Some? {
        var kept := RemoveAll(current.value, target);
        if followingAccepts {
          users := users[me := WithList(users[me], Following, kept)];
        }
        followingReply := Called(followingAccepts);
      }
      assert ListAt(users, target, Followers) == ListAt(old(users), target, Followers);
      var currentFollowers := ListAt(users, target, Followers);
      followersReply := Silent;
      if currentFollowers.Some? {
        var kept := RemoveAll(currentFollowers.value, me);
        if followersAccepts {
          users := users[target := WithList(users[target], Followers, kept)];
        }
        followersReply := Called(followersAccepts);
      }
    }
  }
}
