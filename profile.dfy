/**
 * The profile screen (`ProfileViewController`): whose profile it is, the
 * header it builds from three reads of the store, and the follow state it
 * keeps and changes from the primary button.
 */
module Profile {
  import opened Wrappers
  import opened Strings
  import opened PostModels
  import opened Database
  import opened ProfileHeader
  import opened DatabaseProperties

  /** `isCurrentUserProfile`: a session exists and names this user, ignoring case. */
  function IsCurrentUserProfile(session: Option<string>, user: User): (own: bool)
    ensures own ==> session.Some?
    ensures session.Some? ==> (own <==> Lower(user.name) == Lower(session.value))
  {
    match session
    case None => false
    case Some(username) => Lower(user.name) == Lower(username)
  }

  /** What the settings-button check compares the title with when no session exists. */
  const NoSessionTitle: string := "Me"

  /**
   * `setupViews`: the title is the upper-cased name, and the settings
   * button appears when it equals the upper-cased session name, or "Me"
   * without a session.
   */
  function ShowsSettingsButton(session: Option<string>, user: User): (shows: bool)
    ensures session.None? ==> !shows
    ensures session.Some? ==> (shows <==> Upper(user.name) == Upper(session.value))
  {
    match session
    case Some(username) => Upper(user.name) == Upper(username)
    case None =>
      var shows := Upper(user.name) == NoSessionTitle;
      assert !shows by {
        if |user.name| == 2 {
          UpperHasNoLowerLetter(user.name, 1);
          assert Upper(user.name)[1] != NoSessionTitle[1];
        }
      }
      shows
  }

  /**
   * The settings button and `isCurrentUserProfile` agree: the check by
   * upper-casing finds the same profiles as the one by lower-casing, and
   * "Me" is never an upper-cased name, so without a session the button
   * never shows.
   */
  lemma SettingsButtonIffCurrentProfile(session: Option<string>, user: User)
    ensures ShowsSettingsButton(session, user) <==> IsCurrentUserProfile(session, user)
  {
    match session
    case Some(username) =>
      CaseFoldAgree(user.name, username);
    case None =>
  }

  /** The view model the `DispatchGroup`'s notify block builds once the three reads are in. */
  function HeaderModel(user: User, followers: seq<string>, following: seq<string>, own: bool, isFollower: bool)
    : (vm: ProfileHeaderViewModel)
    ensures vm.avatarImageURL == user.profilePictureURL
    ensures vm.followerCount == |followers| && vm.followingCount == |following|
    ensures own <==> vm.isFollowing.None?
    ensures !own ==> vm.isFollowing == Some(isFollower)
  {
    ProfileHeaderViewModel(user.profilePictureURL, |followers|, |following|, if own then None else Some(isFollower))
  }

  /** On one's own profile the primary button reads "Edit Profile"; elsewhere it offers the opposite of the follow state. */
  lemma HeaderPrimaryTitle(user: User, followers: seq<string>, following: seq<string>, own: bool, isFollower: bool)
    ensures var title := PrimaryTitle(HeaderModel(user, followers, following, own, isFollower).isFollowing);
      && (own ==> title == "Edit Profile")
      && (!own && isFollower ==> title == "Unfollow")
      && (!own && !isFollower ==> title == "Follow")
  {
  }

  /**
   * The follow state after the completion handler of `updateRelationship`
   * has run once per reply: it becomes `requested` when either call reports
   * success and stays `current` otherwise.
   */
  function SettledFollowState(current: bool, requested: bool, first: Callback<bool>, second: Callback<bool>): (b: bool)
    ensures first == Called(true) || second == Called(true) ==> b == requested
    ensures first != Called(true) && second != Called(true) ==> b == current
  {
    var afterFirst := if first == Called(true) then requested else current;
    if second == Called(true) then requested else afterFirst
  }

  /**
   * `ProfileViewController`: the user shown, what the reads delivered and
   * the follow state; `db` is the shared store it reads and writes.
   */
  class ProfileViewController {
    var user: User
    var posts: seq<PostModel>
    var followers: seq<string>
    var following: seq<string>
    var isFollower: bool
    var title: Option<string>
    var showsSettingsButton: bool
    const db: DatabaseManager

    /** `init(user:)`: nothing fetched yet and not following. */
    constructor (user: User, db: DatabaseManager)
      ensures this.user == user && this.db == db
      ensures posts == [] && followers == [] && following == [] && !isFollower
      ensures title == None && !showsSettingsButton
    {
      this.user := user;
      this.db := db;
      posts := [];
      followers := [];
      following := [];
      isFollower := false;
      title := None;
      showsSettingsButton := false;
    }

    /** `setupViews`: the title and whether the settings button is added. */
    method SetupViews()
      modifies this
      ensures title == Some(Upper(user.name))
      ensures showsSettingsButton == ShowsSettingsButton(db.session, user)
      ensures user == old(user) && posts == old(posts) && followers == old(followers)
      ensures following == old(following) && isFollower == old(isFollower)
    {
      title := Some(Upper(user.name));
      var username := if db.session.Some? then Upper(db.session.value) else NoSessionTitle;
      showsSettingsButton := title.value == username;
    }

    /** `fetchPosts`: the posts become what `getPosts` returns for this user. */
    method FetchPosts(ids: nat -> string)
      modifies this
      ensures posts == GetPosts(db.users, user, ids)
      ensures user == old(user) && followers == old(followers) && following == old(following)
      ensures isFollower == old(isFollower) && title == old(title) && showsSettingsButton == old(showsSettingsButton)
    {
      posts := GetPosts(db.users, user, ids);
    }

    /**
     * The header block of `viewForSupplementaryElementOfKind`: both lists
     * are stored, the follow state is stored when `isValidRelationship`
     * calls back, and only then does the group notify and configure the
     * header; without a session the header is left as it was.
     */
    method LoadHeader(header: ProfileHeaderView)
      modifies this, header
      ensures followers == GetRelationships(db.users, user, Followers)
      ensures following == GetRelationships(db.users, user, Following)
      ensures var reply := IsValidRelationship(db.users, db.session, user, Followers);
        isFollower == if reply.Called? then reply.value else old(isFollower)
      ensures db.session.Some? ==>
        header.viewModel == Some(HeaderModel(user, followers, following, IsCurrentUserProfile(db.session, user), isFollower))
      ensures db.session.Some? ==>
        && header.primaryTitle == PrimaryTitle(header.viewModel.value.isFollowing)
        && header.followersTitle == FollowersTitle(|followers|)
        && header.followingTitle == FollowingTitle(|following|)
      ensures db.session.Some? ==> header.avatar == Some(AvatarFor(user.profilePictureURL))
      ensures db.session.None? ==> unchanged(header)
      ensures user == old(user) && posts == old(posts) && title == old(title) && showsSettingsButton == old(showsSettingsButton)
    {
      followers := GetRelationships(db.users, user, Followers);
      following := GetRelationships(db.users, user, Following);
      var reply := IsValidRelationship(db.users, db.session, user, Followers);
      if reply.Called? {
        isFollower := reply.value;
        var vm := ProfileHeaderViewModel(
          user.profilePictureURL, |followers|, |following|,
          if IsCurrentUserProfile(db.session, user) then None else Some(isFollower));
        header.Configure(vm);
      }
    }

    /**
     * The primary-button handler: on one's own profile it opens the editor
     * and writes nothing; elsewhere it unfollows when following and follows
     * otherwise, and the follow state changes only on a reported success.
     */
    method DidTapPrimaryButton(followingAccepts: bool, followersAccepts: bool)
      modifies this, db
      ensures db.session == old(db.session)
      ensures user == old(user) && posts == old(posts) && followers == old(followers) && following == old(following)
      ensures title == old(title) && showsSettingsButton == old(showsSettingsButton)
      ensures IsCurrentUserProfile(old(db.session), user) || old(db.session).None? ==>
        db.users == old(db.users) && isFollower == old(isFollower)
      ensures !IsCurrentUserProfile(old(db.session), user) && old(db.session).Some? && old(isFollower) ==>
        var me, target := Lower(old(db.session).value), Lower(user.name);
        && db.users == UsersAfterUnfollow(old(db.users), me, target, followingAccepts, followersAccepts)
        && isFollower == SettledFollowState(true, false,
             UnfollowReply(old(db.users), me, Following, followingAccepts),
             UnfollowReply(old(db.users), target, Followers, followersAccepts))
      ensures !IsCurrentUserProfile(old(db.session), user) && old(db.session).Some? && !old(isFollower) ==>
        && db.users == UsersAfterFollow(old(db.users), Lower(old(db.session).value), Lower(user.name), followingAccepts, followersAccepts)
        && isFollower == (followingAccepts || followersAccepts)
    {
      if IsCurrentUserProfile(db.session, user) {
        return;
      }
      var follow := !isFollower;
      var first, second := db.UpdateRelationship(user, follow, followingAccepts, followersAccepts);
      if first == Called(true) {
        isFollower := follow;
      }
      if second == Called(true) {
        isFollower := follow;
      }
    }

    /** The followers and following handlers: the list screen receives the list this screen holds. */
    method DidTapListButton(t: ListType) returns (shown: seq<string>)
      ensures t == Followers ==> shown == followers
      ensures t == Following ==> shown == following
    {
      shown := if t == Followers then followers else following;
    }

    /** The avatar handler: the picture picker is offered on one's own profile only. */
    method DidTapAvatar() returns (offersPicker: bool)
      ensures offersPicker <==> db.session.Some? && Lower(user.name) == Lower(db.session.value)
    {
      offersPicker := IsCurrentUserProfile(db.session, user);
    }
  }

  /**
   * After a follow tap whose two writes succeed, the state the screen
   * settles on is what the store then answers: `isValidRelationship`
   * reports the session user among the followers. An unfollow tap likewise
   * settles on false, matching the store.
   */
  lemma PrimaryTapAgreesWithStore(users: Users, session: string, user: User)
    ensures var me, target := Lower(session), Lower(user.name);
      IsValidRelationship(UsersAfterFollow(users, me, target, true, true), Some(session), user, Followers)
        == Called(SettledFollowState(false, true, Called(true), Called(true)))
    ensures var me, target := Lower(session), Lower(user.name);
      var unfollowed := UsersAfterUnfollow(users, me, target, true, true);
      IsValidRelationship(unfollowed, Some(session), user, Followers)
        == Called(false)
  {
    var me := User("", session, None);
    FollowRecordsEdge(users, session, me, user);
    UnfollowErasesEdge(users, session, me, user);
  }

  /**
   * When only the first write of a follow succeeds, the screen shows
   * "Unfollow" while the store still does not list the session user among
   * the followers it had none of before.
   */
  lemma HalfFollowDisagreesWithStore(users: Users, session: string, user: User)
    requires Lower(session) !in GetRelationships(users, user, Followers)
    ensures var me, target := Lower(session), Lower(user.name);
      && SettledFollowState(false, true, Called(true), Called(false))
      && IsValidRelationship(UsersAfterFollow(users, me, target, true, false), Some(session), user, Followers) == Called(false)
  {
    var me, target := Lower(session), Lower(user.name);
    LowerIdempotent(user.name);
    var r := Appended(users, me, Following, target);
    assert ListAt(r, target, Followers) == ListAt(users, target, Followers);
  }
}
