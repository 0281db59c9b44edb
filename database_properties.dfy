/**
 * Properties of the document-store façade that relate several requests:
 * what a read sees after a write, what `insertUser` throws away, how the
 * follow graph changes, and where lower-casing is and is not applied.
 */
module DatabaseProperties {
  import opened Wrappers
  import opened Strings
  import opened PostModels
  import opened Database

  // ----- insertUser -----

  /** On an absent `users` node, `insertUser` leaves exactly one record holding the email. */
  lemma InsertUserOnEmptyRoot(email: string, username: string)
    ensures UsersAfterInsertUser(map[], email, username) == map[username := UserRecord(Some(email), None, None, None)]
  {
  }

  /**
   * `insertUser` replaces the user's whole record: whatever posts and
   * relationship lists were stored under that key are gone afterwards.
   */
  lemma InsertUserDropsPostsAndLists(users: Users, email: string, username: string, u: User, ids: nat -> string)
    requires Lower(u.name) == username
    ensures var r := UsersAfterInsertUser(users, email, username);
      && GetPosts(r, u, ids) == []
      && GetRelationships(r, u, Followers) == []
      && GetRelationships(r, u, Following) == []
      && RecordAt(r, username).email == Some(email)
  {
  }

  /** A second `insertUser` for the same name overwrites the email: the last write wins. */
  lemma InsertUserLastWriteWins(users: Users, e1: string, e2: string, username: string)
    ensures UsersAfterInsertUser(UsersAfterInsertUser(users, e1, username), e2, username)
         == UsersAfterInsertUser(users, e2, username)
  {
  }

  // ----- insertPost then getPosts -----

  /** Appending an entry appends its model, numbered after the others. */
  lemma PostsFromEntriesSnoc(entries: seq<PostEntry>, e: PostEntry, u: User, ids: nat -> string, from: nat)
    ensures PostsFromEntries(entries + [e], u, ids, from)
      == PostsFromEntries(entries, u, ids, from) + [PostFromEntry(e, ids(from + |entries|), u)]
  {
    var longer := entries + [e];
    var a := PostsFromEntries(longer, u, ids, from);
    var b := PostsFromEntries(entries, u, ids, from) + [PostFromEntry(e, ids(from + |entries|), u)];
    assert |a| == |b|;
    forall i | 0 <= i < |a|
      ensures a[i] == b[i]
    {
      if i < |entries| {
        assert longer[i] == entries[i];
      } else {
        assert longer[i] == e;
      }
    }
    assert a == b;
  }

  /**
   * `getPosts` after a successful `insertPost`, for one fixed source of
   * identifiers: the models read before, followed by the new one.
   */
  lemma InsertPostAppendsModel(
    users: Users, session: string, u: User, fileName: string, caption: string, ids: nat -> string)
    requires session in users
    requires Lower(u.name) == session
    ensures var r := users[session := RecordWithPost(users[session], fileName, caption)];
      var before := GetPosts(users, u, ids);
      GetPosts(r, u, ids) == before + [PostModel(ids(|before|), u, fileName, caption, false)]
  {
    var r := users[session := RecordWithPost(users[session], fileName, caption)];
    var before := GetPosts(users, u, ids);
    var after := GetPosts(r, u, ids);
    var stored := users[session].posts.GetOr([]);
    var e := PostEntry(Some(fileName), Some(caption));
    var entries := r[session].posts.value;
    assert entries == stored + [e] by {
      assert entries[..|entries| - 1] == stored;
    }
    assert RecordAt(users, session) == users[session];
    assert RecordAt(r, session) == r[session];
    assert before == PostsFromEntries(stored, u, ids, 0);
    assert after == PostsFromEntries(entries, u, ids, 0);
    PostsFromEntriesSnoc(stored, e, u, ids, 0);
  }

  /**
   * Two reads of the same store, each drawing its own fresh identifiers,
   * return the same posts in the same order; only the identifiers differ.
   */
  lemma GetPostsRenumbered(users: Users, u: User, ids1: nat -> string, ids2: nat -> string)
    ensures var first, second := GetPosts(users, u, ids1), GetPosts(users, u, ids2);
      && |second| == |first|
      && forall i :: 0 <= i < |first| ==> second[i] == first[i].(id := ids2(i))
  {
  }

  /**
   * Read-your-own-write for posts: when the session name is already
   * lower-case and names the user whose posts are read, `getPosts` after a
   * successful `insertPost` returns every earlier post, in order and under
   * a fresh identifier, followed by the new one. The read before takes its
   * identifiers from `ids1`, the read after from `ids2`.
   */
  lemma InsertPostThenGetPosts(
    users: Users, session: string, u: User, fileName: string, caption: string,
    ids1: nat -> string, ids2: nat -> string)
    requires session in users
    requires Lower(u.name) == session
    ensures var r := users[session := RecordWithPost(users[session], fileName, caption)];
      var before, after := GetPosts(users, u, ids1), GetPosts(r, u, ids2);
      && |after| == |before| + 1
      && (forall i :: 0 <= i < |before| ==> after[i] == before[i].(id := ids2(i)))
      && after[|before|] == PostModel(ids2(|before|), u, fileName, caption, false)
  {
    InsertPostAppendsModel(users, session, u, fileName, caption, ids2);
    GetPostsRenumbered(users, u, ids1, ids2);
  }

  /**
   * Two posts inserted one after the other are both listed, in insertion
   * order and after the earlier posts, by the following `getPosts`.
   */
  lemma InsertTwoPostsKeepsOrder(
    users: Users, session: string, u: User, f1: string, c1: string, f2: string, c2: string,
    ids1: nat -> string, ids2: nat -> string)
    requires session in users
    requires Lower(u.name) == session
    ensures var r1 := users[session := RecordWithPost(users[session], f1, c1)];
      var r2 := r1[session := RecordWithPost(r1[session], f2, c2)];
      var before, after := GetPosts(users, u, ids1), GetPosts(r2, u, ids2);
      var n := |before|;
      && |after| == n + 2
      && (forall i :: 0 <= i < n ==> after[i] == before[i].(id := ids2(i)))
      && after[n] == PostModel(ids2(n), u, f1, c1, false)
      && after[n + 1] == PostModel(ids2(n + 1), u, f2, c2, false)
  {
    var r1 := users[session := RecordWithPost(users[session], f1, c1)];
    InsertPostAppendsModel(users, session, u, f1, c1, ids2);
    InsertPostAppendsModel(r1, session, u, f2, c2, ids2);
    GetPostsRenumbered(users, u, ids1, ids2);
  }

  /**
   * `insertPost` writes under the raw session name while `getPosts` reads
   * under the lower-cased one: a user stored as "Alice" who posts while the
   * session holds "Alice" gets a successful write that `getPosts` for
   * "Alice" never returns.
   */
  lemma InsertPostUnseenUnderMixedCase(ids: nat -> string)
    ensures var users := map["Alice" := UserRecord(Some("a@x.com"), None, None, None)];
      var r := users["Alice" := RecordWithPost(users["Alice"], "clip.mov", "hi")];
      && r["Alice"].posts == Some([PostEntry(Some("clip.mov"), Some("hi"))])
      && GetPosts(r, User("1", "Alice", None), ids) == []
  {
    var users := map["Alice" := UserRecord(Some("a@x.com"), None, None, None)];
    var r := users["Alice" := RecordWithPost(users["Alice"], "clip.mov", "hi")];
    assert Lower("Alice")[0] == 'a';
    assert Lower("Alice") !in r;
  }

  // ----- follow / unfollow -----

  /**
   * A follow whose two writes succeed records the edge on both ends: the
   * target's followers gain the session user, the session user's following
   * gains the target, and `isValidRelationship` for the target's followers
   * then answers true.
   */
  lemma FollowRecordsEdge(users: Users, session: string, me: User, u: User)
    requires Lower(me.name) == Lower(session)
    ensures var r := UsersAfterFollow(users, Lower(session), Lower(u.name), true, true);
      && GetRelationships(r, u, Followers) == GetRelationships(users, u, Followers) + [Lower(session)]
      && GetRelationships(r, me, Following) == GetRelationships(users, me, Following) + [Lower(u.name)]
      && IsValidRelationship(r, Some(session), u, Followers) == Called(true)
  {
    var m, t := Lower(session), Lower(u.name);
    LowerIdempotent(session);
    LowerIdempotent(u.name);
    var r1 := Appended(users, m, Following, t);
    var r := Appended(r1, t, Followers, m);
    assert ListAt(r1, t, Followers) == ListAt(users, t, Followers);
    assert ListAt(r, m, Following) == ListAt(r1, m, Following);
  }

  /**
   * Following twice appends twice: the lists are not deduplicated, so the
   * counts shown on the profile grow by two.
   */
  lemma FollowTwiceDuplicates(users: Users, session: string, me: User, u: User)
    requires Lower(me.name) == Lower(session)
    ensures var m, t := Lower(session), Lower(u.name);
      var r := UsersAfterFollow(UsersAfterFollow(users, m, t, true, true), m, t, true, true);
      && GetRelationships(r, u, Followers) == GetRelationships(users, u, Followers) + [m, m]
      && GetRelationships(r, me, Following) == GetRelationships(users, me, Following) + [t, t]
  {
    var m, t := Lower(session), Lower(u.name);
    var r1 := UsersAfterFollow(users, m, t, true, true);
    FollowRecordsEdge(users, session, me, u);
    FollowRecordsEdge(r1, session, me, u);
    assert GetRelationships(users, u, Followers) + [m] + [m] == GetRelationships(users, u, Followers) + [m, m];
    assert GetRelationships(users, me, Following) + [t] + [t] == GetRelationships(users, me, Following) + [t, t];
  }

  /** A follow or unfollow changes no record other than the two it addresses. */
  lemma RelationshipWritesAreLocal(users: Users, m: string, t: string, a1: bool, a2: bool, k: string)
    requires k in users && k != m && k != t
    ensures UsersAfterFollow(users, m, t, a1, a2)[k] == users[k]
    ensures UsersAfterUnfollow(users, m, t, a1, a2)[k] == users[k]
  {
  }

  /**
   * An unfollow whose two writes succeed removes every occurrence of the
   * edge from both ends, whatever duplicates earlier follows left, and
   * keeps the other names.
   */
  lemma UnfollowErasesEdge(users: Users, session: string, me: User, u: User)
    requires Lower(me.name) == Lower(session)
    ensures var r := UsersAfterUnfollow(users, Lower(session), Lower(u.name), true, true);
      && multiset(GetRelationships(r, u, Followers)) == multiset(GetRelationships(users, u, Followers))[Lower(session) := 0]
      && multiset(GetRelationships(r, me, Following)) == multiset(GetRelationships(users, me, Following))[Lower(u.name) := 0]
      && IsValidRelationship(r, Some(session), u, Followers) == Called(false)
  {
    var m, t := Lower(session), Lower(u.name);
    LowerIdempotent(session);
    LowerIdempotent(u.name);
    var r1 := Removed(users, m, Following, t);
    var r := Removed(r1, t, Followers, m);
    assert ListAt(r1, t, Followers) == ListAt(users, t, Followers);
    assert ListAt(r, m, Following) == ListAt(r1, m, Following);
    assert Lower(session) !in GetRelationships(r, u, Followers);
  }

  /** Removing a name that was just appended to a list without it gives the list back. */
  lemma {:induction false} RemoveAllAppended(names: seq<string>, x: string)
    requires x !in names
    ensures RemoveAll(names + [x], x) == names
  {
    if names != [] {
      assert (names + [x])[1..] == names[1..] + [x];
      RemoveAllAppended(names[1..], x);
    }
  }

  /**
   * `removeAll` works element by element and keeps the order of what it
   * keeps: removing from a concatenation removes from each part.
   */
  lemma {:induction false} RemoveAllConcat(a: seq<string>, b: seq<string>, x: string)
    ensures RemoveAll(a + b, x) == RemoveAll(a, x) + RemoveAll(b, x)
  {
    if a == [] {
      assert a + b == b;
    } else {
      assert (a + b)[1..] == a[1..] + b;
      RemoveAllConcat(a[1..], b, x);
    }
  }

  /**
   * Following and then unfollowing, all writes succeeding, gives back the
   * lists `getRelationships` returned before, provided the edge was not
   * there to begin with.
   */
  lemma FollowThenUnfollowRestores(users: Users, session: string, me: User, u: User)
    requires Lower(me.name) == Lower(session)
    requires Lower(session) !in GetRelationships(users, u, Followers)
    requires Lower(u.name) !in GetRelationships(users, me, Following)
    ensures var m, t := Lower(session), Lower(u.name);
      var r := UsersAfterUnfollow(UsersAfterFollow(users, m, t, true, true), m, t, true, true);
      && GetRelationships(r, u, Followers) == GetRelationships(users, u, Followers)
      && GetRelationships(r, me, Following) == GetRelationships(users, me, Following)
  {
    var m, t := Lower(session), Lower(u.name);
    LowerIdempotent(session);
    LowerIdempotent(u.name);
    var f := UsersAfterFollow(users, m, t, true, true);
    FollowRecordsEdge(users, session, me, u);
    var r1 := Removed(f, m, Following, t);
    var r := Removed(r1, t, Followers, m);
    assert ListAt(r1, t, Followers) == ListAt(f, t, Followers);
    assert ListAt(r, m, Following) == ListAt(r1, m, Following);
    RemoveAllAppended(GetRelationships(users, u, Followers), m);
    RemoveAllAppended(GetRelationships(users, me, Following), t);
  }

  /** An unfollow where neither list exists writes nothing and calls back on neither side. */
  lemma UnfollowOfAbsentListsIsSilent(users: Users, m: string, t: string, a1: bool, a2: bool)
    requires ListAt(users, m, Following).None? && ListAt(users, t, Followers).None?
    ensures UsersAfterUnfollow(users, m, t, a1, a2) == users
    ensures UnfollowReply(users, m, Following, a1) == Silent && UnfollowReply(users, t, Followers, a2) == Silent
  {
  }

  /** "alice" follows "bob": bob's followers are exactly ["alice"]; after the unfollow they are empty. */
  lemma AliceFollowsThenUnfollowsBob(alice: User, bob: User)
    requires alice == User("1", "alice", None) && bob == User("2", "bob", None)
    ensures var followed := UsersAfterFollow(map[], alice.name, bob.name, true, true);
      var unfollowed := UsersAfterUnfollow(followed, alice.name, bob.name, true, true);
      && GetRelationships(followed, bob, Followers) == [alice.name]
      && GetRelationships(followed, alice, Following) == [bob.name]
      && GetRelationships(unfollowed, bob, Followers) == []
      && GetRelationships(unfollowed, alice, Following) == []
  {
    var a, b := alice.name, bob.name;
    LowerOfLowercase(a);
    LowerOfLowercase(b);
    assert GetRelationships(map[], bob, Followers) == [] && GetRelationships(map[], alice, Following) == [];
    FollowRecordsEdge(map[], a, alice, bob);
    FollowThenUnfollowRestores(map[], a, alice, bob);
  }
}
