# TikTok clone: store façade and screen logic, in Dafny

This project models the logic core of an iOS TikTok clone and proves properties of that model.

The centre is `DatabaseManager`, the façade over the hosted document tree:
- it registers users;
- it looks a username up by email;
- it appends posts to the signed-in user's record;
- it reads posts and follower/following lists;
- it answers whether the signed-in user is in a list;
- it follows and unfollows.

Around it sit the small rules of the screens that use it:
- the like state of a post;
- the vertical pager of the home feed;
- the sign-up and sign-in guards;
- the profile's follow button and header;
- the notifications list.

How the model is built:
- **The store.** The `users` node is a `map<string, UserRecord>`, keyed by the path segment after `users/`. The empty map stands for an absent node. Every read is a pure function of one snapshot of that map. Every write is a method of `class DatabaseManager`, whose fields are the map and the signed-in username (the `username` value the app keeps in `UserDefaults`). Each write method is proved against a value-level function (`UsersAfterInsertUser`, `RecordWithPost`, `UsersAfterFollow`, `UsersAfterUnfollow`). Properties that relate several requests are lemmas about those functions.
- **Store outcomes and callbacks.** Whether the store accepts a write is a boolean parameter. What a completion handler receives is a `Callback` value: `Silent` means it is never called, and `Called(v)` means it is called with `v`. The source has paths on which a handler is never called, and the model keeps them.
- **Screens.** The screens that keep state are classes whose fields are that state: `PostViewController`, `ProfileViewController`, `ProfileHeaderView`, `SignInViewController` and `NotificationsViewController`. Their handlers are methods that say the whole new state. The pager and the sign-up guard are pure functions.
- **Environment.** UUIDs, `Date()`, the identity provider's answer and the store's answer are parameters.

Files, one module each:
- `wrappers.dfy`: `Option` and `Callback`.
- `strings.dfy`: lower-casing, upper-casing, trimming and decimal rendering.
- `post_model.dfy`: `PostModel` and `User`.
- `notification_model.dfy`: `Notification` and its mock data.
- `database.dfy`: `DatabaseManager`.
- `database_properties.dfy`: lemmas that relate several store requests.
- `post_screen.dfy`: the like state of a post.
- `home.dfy`: the home feed's pager.
- `auth_manager.dfy`: `AuthManager.signUp`.
- `sign_up.dfy`: the sign-up screen.
- `sign_in.dfy`: the sign-in screen.
- `profile_header.dfy`: the profile header.
- `profile.dfy`: the profile screen.
- `notifications_screen.dfy`: the notifications tab.

## Model

| member | source | states |
|---|---|---|
| Strings.Lower | TikTok/ViewControllers/Core/Profile/ProfileViewController.swift:22 | `lowercased()` on ASCII letters: the length is kept and each character is mapped on its own, upper-case letters to lower-case and everything else unchanged |
| Strings.Upper | TikTok/ViewControllers/Core/Profile/ProfileViewController.swift:84-86 | `uppercased()` on ASCII letters: the length is kept and each character is mapped on its own, lower-case letters to upper-case and everything else unchanged |
| Strings.CaseFoldAgree | TikTok/ViewControllers/Core/Profile/ProfileViewController.swift:84-89 | under ASCII-only case mapping, comparing two names after lower-casing and after upper-casing gives the same answer |
| Strings.LeadingBlanks | TikTok/ViewControllers/Other/Authentication/SignUpViewController.swift:136-138 | the count is the length of the run of spaces and tabs that opens the text, and the character after that run is not a space or tab |
| Strings.TrailingBlanks | TikTok/ViewControllers/Other/Authentication/SignUpViewController.swift:136-138 | the count is the length of the run of spaces and tabs that closes the text, and the character before that run is not a space or tab |
| Strings.Trim | TikTok/ViewControllers/Other/Authentication/SignUpViewController.swift:136-138 | the result is the contiguous middle of the text that starts after the leading blanks; everything removed before and after it is spaces and tabs, and the result neither starts nor ends with one |
| Strings.TrimEmptyIffBlank | TikTok/ViewControllers/Other/Authentication/SignUpViewController.swift:136-138 | trimming whitespace leaves the empty string exactly when the text is only spaces and tabs |
| Strings.NatToStringRoundTrip | TikTok/ViewControllers/Core/Notifications/NotificationModel.swift:39 | the decimal digits of a number read back as that number |
| Strings.IntToString | TikTok/ViewControllers/Core/Profile/ProfileHeaderCollectionReusableView.swift:54-55 | `"\(count)"`: never empty; it starts with a minus sign exactly when the number is negative; the rest is decimal digits whose value is the number's magnitude, with no leading zero |
| Strings.IntToStringInjective | TikTok/ViewControllers/Core/Profile/ProfileHeaderCollectionReusableView.swift:54-55 | two different counts are never rendered as the same text |
| PostModels.NewPost | TikTok/ViewControllers/Other/Post/PostModel.swift:10-15 | a post built from id and user has an empty file name, an empty caption and is not liked |
| PostModels.VideoChildPath | TikTok/ViewControllers/Other/Post/PostModel.swift:17-19 | the storage path splits into "videos/", the owner's lower-cased name, "/" and the file name |
| PostModels.VideoChildPathKey | TikTok/ViewControllers/Other/Post/PostModel.swift:17-19 | for owners' names of equal length, two paths are equal exactly when the names are equal up to case and the file names are equal |
| PostModels.VideoChildPathOfLowercaseOwner | TikTok/ViewControllers/Other/Post/PostModel.swift:17-19 | for an owner whose name has no upper-case letter, the path holds the name exactly as stored |
| PostModels.TestPostCaption | TikTokTests/TikTokTests.swift:13-20 | the unit test's first half: a new post's caption is empty, and after assigning "Hello, world!" it reads back as that text |
| PostModels.TestPostChildPath | TikTokTests/TikTokTests.swift:13-22 | the unit test's last assertion: the path of a new post owned by "billgates" is "videos/billgates/" |
| PostModels.MockModels | TikTok/ViewControllers/Other/Post/PostModel.swift:21-28 | exactly 101 posts, each new, owned by a fresh user named "kanyewest", with default fields |
| NotificationModels.TypeId | TikTok/ViewControllers/Core/Notifications/NotificationModel.swift:15-21 | each case has its own fixed id: "postLike", "userFollow" or "postComment" |
| NotificationModels.TypeIdIdentifiesCase | TikTok/ViewControllers/Core/Notifications/NotificationModel.swift:15-21 | two notification types share an id exactly when they are the same case, whatever their associated values |
| NotificationModels.Notification.constructor | TikTok/ViewControllers/Core/Notifications/NotificationModel.swift:24-35 | a new notification is not hidden and holds the given id, text, type and date, which are constants |
| NotificationModels.MockText | TikTok/ViewControllers/Core/Notifications/NotificationModel.swift:38-51 | item text is "Something happened: " followed by decimal digits whose value is the item's index, with no leading zero |
| NotificationModels.MockGroup | TikTok/ViewControllers/Core/Notifications/NotificationModel.swift:38-52 | one group is six new, distinct, visible notifications of one type, with texts numbered 0 to 5 |
| NotificationModels.MockData | TikTok/ViewControllers/Core/Notifications/NotificationModel.swift:37-54 | 18 new, distinct notifications: six comments, then six follows, then six likes |
| Database.RawValue | TikTok/ViewControllers/Other/UserListViewController.swift:12-15 | the path segment of a list type is "followers" or "following", one per case |
| Database.UsersAfterInsertUser | TikTok/Managers/DatabaseManager.swift:46-48 | the user's record becomes the email alone; every other record is kept |
| Database.RecordWithPost | TikTok/Managers/DatabaseManager.swift:95-119 | the posts list grows by one: the old entries (or none), then the new name and caption; email and lists are kept |
| Database.PostFromEntry | TikTok/Managers/DatabaseManager.swift:149-154 | a stored entry becomes a post of the given user with a new id; a missing name or caption becomes "" |
| Database.PostsFromEntries | TikTok/Managers/DatabaseManager.swift:149-154 | one post per stored entry, in order |
| Database.GetPosts | TikTok/Managers/DatabaseManager.swift:141-158 | reads under the lower-cased name: no posts list gives no posts, otherwise one post per entry in order |
| Database.GetRelationships | TikTok/Managers/DatabaseManager.swift:165-176 | the stored list under the lower-cased name, or empty when there is none |
| Database.IsValidRelationship | TikTok/Managers/DatabaseManager.swift:183-198 | no callback without a session; otherwise true exactly when the lower-cased session name is in the list, and false when the list is absent |
| Database.Appended | TikTok/Managers/DatabaseManager.swift:213-225 | the list gains the name at its end, and is created when absent; nothing else changes |
| Database.RemoveAll | TikTok/Managers/DatabaseManager.swift:247 | the name no longer occurs; every other name keeps its number of occurrences; a list without the name is returned unchanged |
| Database.UsersAfterFollow | TikTok/Managers/DatabaseManager.swift:210-240 | a follow adds at most the two records it writes to, and each accepted side leaves its list present |
| Database.UsersAfterUnfollow | TikTok/Managers/DatabaseManager.swift:241-263 | an unfollow creates and deletes no record, and no list appears or disappears |
| Database.Removed | TikTok/Managers/DatabaseManager.swift:244-252 | an absent list is left absent; otherwise the list loses every copy of the name; nothing else changes |
| Database.UnfollowReply | TikTok/Managers/DatabaseManager.swift:244-262 | an unfollow side calls back only when its list exists, and then reports whether the store accepted the write |
| Database.DatabaseManager.InsertUser | TikTok/Managers/DatabaseManager.swift:27-56 | on an absent node or an existing one, the store ends up with the user's record replaced by the email, when the write is accepted |
| Database.DatabaseManager.GetUsername | TikTok/Managers/DatabaseManager.swift:62-76 | `nil` for an absent node; otherwise a user whose email matches; no callback at all when none matches |
| Database.DatabaseManager.InsertPost | TikTok/Managers/DatabaseManager.swift:83-121 | fails without writing when there is no session or no record under the raw session name; otherwise appends the entry to that record |
| Database.DatabaseManager.GetNotifications | TikTok/Managers/DatabaseManager.swift:125-127 | returns the mock list of 18 new notifications |
| Database.DatabaseManager.MarkNotificationAsHidden | TikTok/Managers/DatabaseManager.swift:133-135 | always reports success and changes nothing |
| Database.DatabaseManager.UpdateRelationship | TikTok/Managers/DatabaseManager.swift:205-266 | nothing without a session; a follow appends on both sides and reports each write; an unfollow removes on both sides, and a side whose list is absent is silent |
| Database.DatabaseManager.FollowWrites | TikTok/Managers/DatabaseManager.swift:210-240 | the follow branch: the store becomes `UsersAfterFollow` of the old store, and each side reports whether its write was accepted |
| Database.DatabaseManager.UnfollowWrites | TikTok/Managers/DatabaseManager.swift:241-263 | the unfollow branch: the store becomes `UsersAfterUnfollow` of the old store, and a side whose list was absent stays silent |
| DatabaseProperties.InsertUserOnEmptyRoot | TikTok/Managers/DatabaseManager.swift:29-36 | on an absent node the store holds exactly the one new record |
| DatabaseProperties.InsertUserDropsPostsAndLists | TikTok/Managers/DatabaseManager.swift:46-48 | registering a name again throws away its posts and lists |
| DatabaseProperties.InsertUserLastWriteWins | TikTok/Managers/DatabaseManager.swift:46-48 | of two registrations under one name, the second email wins |
| DatabaseProperties.PostsFromEntriesSnoc | TikTok/Managers/DatabaseManager.swift:140-156 | one more stored entry yields one more model at the end, numbered after the others |
| DatabaseProperties.InsertPostAppendsModel | TikTok/Managers/DatabaseManager.swift:95-158 | with a lower-case session name and one fixed source of identifiers, `getPosts` after `insertPost` is the earlier read followed by the new post |
| DatabaseProperties.GetPostsRenumbered | TikTok/Managers/DatabaseManager.swift:141-157 | two reads of one store return the same posts in the same order, differing only in their fresh identifiers |
| DatabaseProperties.InsertPostThenGetPosts | TikTok/Managers/DatabaseManager.swift:95-158 | with a lower-case session name, `getPosts` after `insertPost` returns the earlier posts in order, each under a fresh identifier, followed by the new one |
| DatabaseProperties.InsertTwoPostsKeepsOrder | TikTok/Managers/DatabaseManager.swift:95-158 | two posts inserted in turn are read back after the earlier posts, in insertion order, under fresh identifiers |
| DatabaseProperties.InsertPostUnseenUnderMixedCase | TikTok/Managers/DatabaseManager.swift:84-89 | a post written under the raw name "Alice" is never returned by `getPosts`, which reads under "alice" |
| DatabaseProperties.FollowRecordsEdge | TikTok/Managers/DatabaseManager.swift:210-240 | a follow whose writes succeed appends the edge on both ends, and `isValidRelationship` then reports true |
| DatabaseProperties.FollowTwiceDuplicates | TikTok/Managers/DatabaseManager.swift:210-240 | following twice lists the edge twice on both ends |
| DatabaseProperties.RelationshipWritesAreLocal | TikTok/Managers/DatabaseManager.swift:205-266 | a follow or unfollow changes no record but the two it addresses |
| DatabaseProperties.UnfollowErasesEdge | TikTok/Managers/DatabaseManager.swift:241-263 | an unfollow whose writes succeed removes every copy of the edge on both ends, keeps the other names, and `isValidRelationship` then reports false |
| DatabaseProperties.RemoveAllConcat | TikTok/Managers/DatabaseManager.swift:247 | removal works element by element and keeps the order of what remains |
| DatabaseProperties.RemoveAllAppended | TikTok/Managers/DatabaseManager.swift:247 | removing a name just appended to a list without it gives the list back |
| DatabaseProperties.FollowThenUnfollowRestores | TikTok/Managers/DatabaseManager.swift:205-266 | follow then unfollow, all writes accepted, restores both lists when the edge was not there before |
| DatabaseProperties.UnfollowOfAbsentListsIsSilent | TikTok/Managers/DatabaseManager.swift:241-263 | an unfollow on absent lists writes nothing and never calls back |
| DatabaseProperties.AliceFollowsThenUnfollowsBob | TikTok/Managers/DatabaseManager.swift:205-266 | on an empty store, "alice" following "bob" gives the lists ["alice"] and ["bob"], and unfollowing empties them |
| PostScreen.HeartTint | TikTok/ViewControllers/Other/Post/PostViewController.swift:269-279 | the heart is red exactly when the post is liked |
| PostScreen.ToggledLike | TikTok/ViewControllers/Other/Post/PostViewController.swift:266-267 | a tap flips the like flag and changes nothing else about the post |
| PostScreen.DoubleTapped | TikTok/ViewControllers/Other/Post/PostViewController.swift:292-296 | a double tap leaves the post liked and changes nothing else |
| PostScreen.ToggleTwiceRestores | TikTok/ViewControllers/Other/Post/PostViewController.swift:266-267 | two taps give back the original post |
| PostScreen.DoubleTapIdempotent | TikTok/ViewControllers/Other/Post/PostViewController.swift:292-296 | a double tap never unlikes, and a second one changes nothing |
| PostScreen.DoubleTapOnUnlikedIsToggle | TikTok/ViewControllers/Other/Post/PostViewController.swift:266-296 | on an unliked post, a double tap and a tap reach the same post |
| PostScreen.PostViewController.constructor | TikTok/ViewControllers/Other/Post/PostViewController.swift:115-123 | the heart starts white, whatever the post's like flag |
| PostScreen.PostViewController.DidTapLike | TikTok/ViewControllers/Other/Post/PostViewController.swift:266-280 | the post is toggled and the heart's tint matches the new like state |
| PostScreen.PostViewController.DidDoubleTap | TikTok/ViewControllers/Other/Post/PostViewController.swift:292-296 | the post becomes liked and the heart keeps its old tint |
| Home.CurrentPosts | TikTok/ViewControllers/Core/Home/HomeViewController.swift:188-190 | the "Following" feed at horizontal offset zero, the "For You" feed otherwise |
| Home.FirstIndex | TikTok/ViewControllers/Core/Home/HomeViewController.swift:150-152 | an in-bounds position whose post has the id, with no match before it; or none when no post has the id |
| Home.PostBefore | TikTok/ViewControllers/Core/Home/HomeViewController.swift:145-164 | no page before an empty page; any page before is a post of the list other than the last |
| Home.PostAfter | TikTok/ViewControllers/Core/Home/HomeViewController.swift:166-186 | no page after an empty page; any page after is a post of the list other than the first |
| Home.PostBeforeSpec | TikTok/ViewControllers/Core/Home/HomeViewController.swift:145-164 | the page before exists exactly when the id occurs but not first; it is the post just before the first match |
| Home.PostAfterSpec | TikTok/ViewControllers/Core/Home/HomeViewController.swift:166-186 | the page after exists exactly when the id occurs before the last position; it is the post just after the first match |
| Home.PagingRoundTrip | TikTok/ViewControllers/Core/Home/HomeViewController.swift:145-186 | with unique ids, the neighbours of position i are i-1 and i+1, and paging down then up (or up then down) returns to the start |
| Home.FirstIndexOfUnique | TikTok/ViewControllers/Core/Home/HomeViewController.swift:150-152 | with unique ids, the first match of a post's id is its own position |
| Home.DuplicateIdsRevisit | TikTok/ViewControllers/Core/Home/HomeViewController.swift:145-186 | with a repeated id, paging from the third post leads back to the second, and there is no page before it |
| SignUpScreen.SignUpRequest | TikTok/ViewControllers/Other/Authentication/SignUpViewController.swift:133-147 | accepted input is passed on unchanged as the three credentials |
| SignUpScreen.AcceptsSignUpRules | TikTok/ViewControllers/Other/Authentication/SignUpViewController.swift:133-141 | on present texts, the guard holds exactly when no field is blank, the untrimmed password has at least 6 characters, and the username has no space or dot |
| SignUpScreen.SignUpRequestRules | TikTok/ViewControllers/Other/Authentication/SignUpViewController.swift:133-141 | sign-up is accepted exactly when all three fields are present and not blank, the untrimmed password has at least 6 characters, and the username has no space or dot |
| SignUpScreen.SignUpPasswordLengthIsUntrimmed | TikTok/ViewControllers/Other/Authentication/SignUpViewController.swift:136-141 | once the other rules hold, the form passes exactly when the password as typed, surrounding spaces included, has at least 6 characters |
| SignUpScreen.SignUpRejectsDotsAndShortPasswords | TikTok/ViewControllers/Other/Authentication/SignUpViewController.swift:139-141 | a username with a dot is rejected, and so is a five-character password |
| AuthManager.SignUp | TikTok/ViewControllers/Other/Authentication/AuthManager.swift:73-83 | the user record is written only when the provider accepts; the result is provider and store success together |
| SignUpScreen.DidTapSignUp | TikTok/ViewControllers/Other/Authentication/SignUpViewController.swift:131-162 | rejected input leaves the store untouched; accepted input signs up once, and success means the record was written |
| SignUpScreen.MixedCaseSignUpIsUnread | TikTok/ViewControllers/Other/Authentication/SignUpViewController.swift:140-147 | a user who signs up as "Alice" is stored under "Alice", while reads look under "alice" and find nothing |
| SignInScreen.SignInRequest | TikTok/ViewControllers/Other/Authentication/SignInViewController.swift:132-142 | sign-in is accepted exactly when both fields are present and pass the guard, and the typed texts are passed on |
| SignInScreen.SignInRequestRules | TikTok/ViewControllers/Other/Authentication/SignInViewController.swift:132-136 | sign-in is accepted exactly when email and password are present and not blank and the password has at least 6 characters; there are no username rules |
| SignInScreen.SignUpInputSignsIn | TikTok/ViewControllers/Other/Authentication/SignInViewController.swift:132-136 | whatever passes the sign-up guard passes the sign-in guard |
| SignInScreen.SignInViewController.DidTapSignIn | TikTok/ViewControllers/Other/Authentication/SignInViewController.swift:131-161 | rejected input never reaches the provider; on failure the password is cleared and the email is kept |
| ProfileHeader.PrimaryTitle | TikTok/ViewControllers/Core/Profile/ProfileHeaderCollectionReusableView.swift:63-69 | "Edit Profile" exactly when `isFollowing` is nil, "Unfollow" exactly when true, "Follow" exactly when false |
| ProfileHeader.CountTitle | TikTok/ViewControllers/Core/Profile/ProfileHeaderCollectionReusableView.swift:54-55 | the title is the decimal count, a line break and the noun |
| ProfileHeader.CountTitleInjective | TikTok/ViewControllers/Core/Profile/ProfileHeaderCollectionReusableView.swift:54-55 | two count titles for the same noun are equal exactly when the counts are |
| ProfileHeader.AvatarFor | TikTok/ViewControllers/Core/Profile/ProfileHeaderCollectionReusableView.swift:57-61 | the avatar comes from the URL when there is one, and otherwise is the bundled "test" image |
| ProfileHeader.ProfileHeaderView.constructor | TikTok/ViewControllers/Core/Profile/ProfileHeaderCollectionReusableView.swift:32-39 | no view model yet; the buttons read "Follow", "0\nFollowers" and "0\nFollowing" |
| ProfileHeader.ProfileHeaderView.Configure | TikTok/ViewControllers/Core/Profile/ProfileHeaderCollectionReusableView.swift:51-70 | stores the view model and sets each title and the avatar from it |
| ProfileHeader.ProfileHeaderView.Tap | TikTok/ViewControllers/Core/Profile/ProfileHeaderCollectionReusableView.swift:170-188 | every tap forwards exactly the stored view model, and nothing before `configure` |
| ProfileHeader.InitialTitlesAreZeroNotFollowing | TikTok/ViewControllers/Core/Profile/ProfileHeaderCollectionReusableView.swift:87-106 | the initial titles are what `configure` would show for zero counts and not following |
| Profile.IsCurrentUserProfile | TikTok/ViewControllers/Core/Profile/ProfileViewController.swift:20-25 | true exactly when a session exists and names this user, ignoring case |
| Profile.ShowsSettingsButton | TikTok/ViewControllers/Core/Profile/ProfileViewController.swift:84-89 | without a session the button never shows, since "Me" is never an upper-cased name; with one it shows exactly when the upper-cased names are equal |
| Profile.SettingsButtonIffCurrentProfile | TikTok/ViewControllers/Core/Profile/ProfileViewController.swift:84-89 | under ASCII-only case mapping, the settings button shows exactly on one's own profile |
| Profile.HeaderModel | TikTok/ViewControllers/Core/Profile/ProfileViewController.swift:181-186 | the counts are the list lengths; `isFollowing` is nil on one's own profile and the follow state elsewhere |
| Profile.HeaderPrimaryTitle | TikTok/ViewControllers/Core/Profile/ProfileViewController.swift:181-187 | the header's button offers editing on one's own profile, and otherwise the opposite of the follow state |
| Profile.SettledFollowState | TikTok/ViewControllers/Core/Profile/ProfileViewController.swift:225-248 | the follow state takes the requested value when either callback reports success, and stays as it was otherwise |
| Profile.ProfileViewController.constructor | TikTok/ViewControllers/Core/Profile/ProfileViewController.swift:14-38 | nothing fetched and not following |
| Profile.ProfileViewController.SetupViews | TikTok/ViewControllers/Core/Profile/ProfileViewController.swift:83-89 | the title is the upper-cased name; the settings button follows the session rule |
| Profile.ProfileViewController.FetchPosts | TikTok/ViewControllers/Core/Profile/ProfileViewController.swift:57-64 | the posts become what `getPosts` returns for the user |
| Profile.ProfileViewController.LoadHeader | TikTok/ViewControllers/Core/Profile/ProfileViewController.swift:155-188 | both lists are stored; the follow state comes from `isValidRelationship`; the header is configured only when that read calls back, so never without a session, and then shows the counts, the primary title and the avatar the view model gives |
| Profile.ProfileViewController.DidTapPrimaryButton | TikTok/ViewControllers/Core/Profile/ProfileViewController.swift:215-251 | one's own profile writes nothing; elsewhere the tap unfollows when following and follows otherwise, and the state changes only on a reported success |
| Profile.ProfileViewController.DidTapListButton | TikTok/ViewControllers/Core/Profile/ProfileViewController.swift:253-267 | the list screen receives the followers or the following list this screen holds |
| Profile.ProfileViewController.DidTapAvatar | TikTok/ViewControllers/Core/Profile/ProfileViewController.swift:269-272 | the picture picker is offered only on one's own profile |
| Profile.PrimaryTapAgreesWithStore | TikTok/ViewControllers/Core/Profile/ProfileViewController.swift:225-248 | after a follow or unfollow tap whose writes succeed, the screen's follow state is what `isValidRelationship` then reports |
| Profile.HalfFollowDisagreesWithStore | TikTok/ViewControllers/Core/Profile/ProfileViewController.swift:237-248 | when only the first write of a follow succeeds, the screen shows "following" while the store reports not following |
| NotificationsScreen.Visible | TikTok/ViewControllers/Core/Notifications/NotificationsViewController.swift:185 | the filtered list is never longer than the list |
| NotificationsScreen.VisibleKeepsExactlyShown | TikTok/ViewControllers/Core/Notifications/NotificationsViewController.swift:185 | a notification is in the filtered list exactly when it is in the list and not hidden |
| NotificationsScreen.VisibleConcat | TikTok/ViewControllers/Core/Notifications/NotificationsViewController.swift:185 | the filter keeps list order |
| NotificationsScreen.VisibleOfShown | TikTok/ViewControllers/Core/Notifications/NotificationsViewController.swift:185 | a list with nothing hidden passes the filter unchanged |
| NotificationsScreen.VisibleDropsRow | TikTok/ViewControllers/Core/Notifications/NotificationsViewController.swift:178-185 | when only the deleted row is hidden, the filter removes exactly that row |
| NotificationsScreen.NotificationsViewController.constructor | TikTok/ViewControllers/Core/Notifications/NotificationsViewController.swift:58-70 | an empty list, with the label and the table both hidden |
| NotificationsScreen.NotificationsViewController.UpdateUI | TikTok/ViewControllers/Core/Notifications/NotificationsViewController.swift:46-55 | the label shows and the table hides exactly when the list is empty |
| NotificationsScreen.NotificationsViewController.FetchNotifications | TikTok/ViewControllers/Core/Notifications/NotificationsViewController.swift:35-44 | the list is replaced by the fetched one, and the label and table are updated |
| NotificationsScreen.NotificationsViewController.Refresh | TikTok/ViewControllers/Core/Notifications/NotificationsViewController.swift:118-129 | the list is replaced by the fetched one, and the label and table are left as they were |
| NotificationsScreen.NotificationsViewController.CommitEditing | TikTok/ViewControllers/Core/Notifications/NotificationsViewController.swift:174-192 | a non-delete style changes nothing; a delete hides the row's notification and the list becomes the shown ones in order; no other flag changes |

## Left out

- Concurrency. Every store request runs to completion before the next one starts. The model therefore has no lost updates from concurrent read-modify-write cycles, and no interleaving of the two halves of `updateRelationship` or of the three reads behind the profile header. Completion handlers run in the order the source issues them.
- The hosted store's shape. A `users` node that is not a dictionary, or a posts list with a non-string value, cannot be represented. In the source, either one makes the cast fail. `UserRecord` also admits a record with no field at all, for which `InsertPost` reports success; the hosted store cannot hold such an empty node. The model's own writes never create one: each of them sets at least one field of the record it writes.
- Empty lists. The hosted store deletes a node set to an empty array. The model keeps the list as present and empty, so an unfollow on it still calls back.
- Write failures. A write the store rejects changes nothing, and its error is a boolean parameter.
- The environment. UUIDs and `Date()` are parameters. So are the identity provider's answers to sign-up and sign-in, and the signed-in username, which the model sets and never writes.
- Strings.CaseFoldAgree: holds for ASCII-only case mapping. Swift's full mapping breaks it: "straße" and "strasse" upper-case alike but lower-case differently, and the Kelvin sign lower-cases to "k" but upper-cases to itself.
- Profile.SettingsButtonIffCurrentProfile: holds for ASCII names only, for the same reason. Under Swift's full case mapping, a profile named "strasse" shows the settings button to the signed-in "straße" although `isCurrentUserProfile` is false. A name holding the Kelvin sign is the reverse case. The sign-up guard admits such names.
- Usernames with store-invalid characters. The sign-up guard (`SignUpViewController.swift:133-141`) rejects only spaces and dots, so a username with `/`, `#`, `$`, `[` or `]` passes it. The model treats every username as one flat key of the map. In the source, the hosted store rejects keys with `#`, `$`, `[` or `]`, so `insertUser` (`DatabaseManager.swift:31-48`) calls back `false`; and `child(username)` (`DatabaseManager.swift:89`, `:103`, `:112`) reads a `/` as a path separator, so the record lands in a nested node and `getUsername` (`DatabaseManager.swift:62-76`) does not find its email.
- Text handling. Lower-casing and upper-casing cover ASCII letters only. Trimming strips spaces and tabs only. `count` is counted in Unicode scalars (Dafny `char`s), where Swift counts `Character`s (grapheme clusters).
- `AuthManager` sign-in and sign-out. They are thin wrappers over the identity provider, and only `signUp`'s chaining into `insertUser` is modelled.
- Presentation and media. This covers UIKit and SnapKit layout, colours other than the heart's tint, haptics, alerts, navigation and the weak delegate. The camera, the caption screen, the storage manager and the Explore feed are not part of this model either.
- Floating point. Horizontal-offset geometry is not modelled: the pager reads a boolean "offset is zero".
- Stale files. The older duplicates under `TikTok/Controllers/`, `TikTok/Models/` and `TikTok/Managers/AuthenticationManager.swift` predate the live types and are not modelled.
- Row bounds. The delete handler requires its row to be one the table displays, which the table view guarantees when it calls the handler.
