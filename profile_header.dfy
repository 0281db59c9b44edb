/**
 * The header of a profile (`ProfileHeaderViewModel`,
 * `ProfileHeaderCollectionReusableView`): the view model the profile
 * screen builds, the button titles `configure` derives from it, and the
 * taps it forwards to its delegate.
 */
module ProfileHeader {
  import opened Wrappers
  import opened Strings

  /**
   * `ProfileHeaderViewModel`; `isFollowing` is `None` on one's own profile.
   * The avatar URL is kept as its string.
   */
  datatype ProfileHeaderViewModel = ProfileHeaderViewModel(
    avatarImageURL: Option<string>,
    followerCount: int,
    followingCount: int,
    isFollowing: Option<bool>)

  /** The title of the primary button for a view model's `isFollowing`. */
  function PrimaryTitle(isFollowing: Option<bool>): (title: string)
    ensures title == "Edit Profile" <==> isFollowing == None
    ensures title == "Unfollow" <==> isFollowing == Some(true)
    ensures title == "Follow" <==> isFollowing == Some(false)
  {
    match isFollowing
    case None => "Edit Profile"
    case Some(following) => if following then "Unfollow" else "Follow"
  }

  /** A count button's two-line title: the count in decimal, a line break, the noun. */
  function CountTitle(count: int, noun: string): (title: string)
    ensures |title| > |noun| + 1
    ensures title[|title| - |noun| - 1] == '\n' && title[|title| - |noun|..] == noun
    ensures title[..|title| - |noun| - 1] == IntToString(count)
  {
    var digits := IntToString(count);
    var title := digits + "\n" + noun;
    assert title[..|title| - |noun| - 1] == digits;
    assert title[|title| - |noun|..] == noun;
    title
  }

  /** The title of the followers button. */
  function FollowersTitle(count: int): string
  {
    CountTitle(count, "Followers")
  }

  /** The title of the following button. */
  function FollowingTitle(count: int): string
  {
    CountTitle(count, "Following")
  }

  /** A count button's title gives its count back: different counts are shown differently. */
  lemma CountTitleInjective(a: int, b: int, noun: string)
    ensures CountTitle(a, noun) == CountTitle(b, noun) <==> a == b
  {
    if CountTitle(a, noun) == CountTitle(b, noun) {
      var t := CountTitle(a, noun);
      assert IntToString(a) == t[..|t| - |noun| - 1] == IntToString(b);
      IntToStringInjective(a, b);
    }
  }

  /** Where the avatar image comes from: the view model's URL, or the bundled "test" image. */
  datatype AvatarSource = Remote(url: string) | Bundled(name: string)

  function AvatarFor(url: Option<string>): (source: AvatarSource)
    ensures url.Some? <==> source.Remote?
    ensures url.Some? ==> source == Remote(url.value)
    ensures url.None? ==> source == Bundled("test")
  {
    match url
    case Some(u) => Remote(u)
    case None => Bundled("test")
  }

  /** The four controls of the header that forward a tap. */
  datatype HeaderControl = PrimaryButton | FollowersButton | FollowingButton | AvatarImage

  /**
   * `ProfileHeaderCollectionReusableView`: the stored view model and what
   * the buttons and the avatar currently show.
   */
  class ProfileHeaderView {
    var viewModel: Option<ProfileHeaderViewModel>
    var primaryTitle: string
    var followersTitle: string
    var followingTitle: string
    var avatar: Option<AvatarSource>

    /** `init(frame:)`, whose `setupViews` gives the buttons "Follow", "0\nFollowers" and "0\nFollowing". */
    constructor ()
      ensures viewModel == None && avatar == None
      ensures primaryTitle == "Follow" && followersTitle == "0\nFollowers" && followingTitle == "0\nFollowing"
    {
      viewModel := None;
      avatar := None;
      primaryTitle := "Follow";
      followersTitle := "0\nFollowers";
      followingTitle := "0\nFollowing";
    }

    /** `configure(with:)`: stores the view model and shows what it says. */
    method Configure(vm: ProfileHeaderViewModel)
      modifies this
      ensures viewModel == Some(vm)
      ensures followersTitle == FollowersTitle(vm.followerCount)
      ensures followingTitle == FollowingTitle(vm.followingCount)
      ensures avatar == Some(AvatarFor(vm.avatarImageURL))
      ensures primaryTitle == PrimaryTitle(vm.isFollowing)
    {
      viewModel := Some(vm);
      followersTitle := IntToString(vm.followerCount) + "\nFollowers";
      followingTitle := IntToString(vm.followingCount) + "\nFollowing";
      assert followersTitle == FollowersTitle(vm.followerCount);
      assert followingTitle == FollowingTitle(vm.followingCount);
      if vm.avatarImageURL.Some? {
        avatar := Some(Remote(vm.avatarImageURL.value));
      } else {
        avatar := Some(Bundled("test"));
      }
      if vm.isFollowing.Some? {
        primaryTitle := if vm.isFollowing.value then "Unfollow" else "Follow";
      } else {
        primaryTitle := "Edit Profile";
      }
    }

    /**
     * The four tap handlers: each forwards the stored view model to the
     * delegate, and does nothing before the first `configure`.
     */
    method Tap(control: HeaderControl) returns (forwarded: Option<ProfileHeaderViewModel>)
      ensures viewModel.None? ==> forwarded.None?
      ensures viewModel.Some? ==> forwarded == viewModel
    {
      if viewModel.None? {
        return None;
      }
      forwarded := Some(viewModel.value);
    }
  }

  /**
   * Before `configure` the header reads as if configured with zero counts
   * on another user's profile that is not followed.
   */
  lemma InitialTitlesAreZeroNotFollowing()
    ensures PrimaryTitle(Some(false)) == "Follow"
    ensures FollowersTitle(0) == "0\nFollowers"
    ensures FollowingTitle(0) == "0\nFollowing"
  {
    assert IntToString(0) == "0";
  }
}
