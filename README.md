# NebulaArt client core in Dafny

NebulaArt is a mobile art-sharing app. This project models the client logic that decides what
the app shows and what it does:

- **The shared client store.** This holds the signed-in user, the artwork and artist feeds, the
  store's following list and the user directory. It is modelled as a class whose actions rewrite
  its fields. Each action is specified by a pure function on a snapshot of the store.
- **The recommendation score.** The score has a freshness window, a liked-artist boost and an
  interaction weight. The model also covers the comparator sort and the title-based category
  filter.
- **Safe-area insets.** These cover the notch heights, the status bar and bottom insets, and
  style padding.
- **Image-picker response handling** and the upload size limit.
- **The API client.** This covers base URL, default headers, bearer token, header merging and the
  paged endpoints.
- **The screens' own logic.** This covers:
  - the curation detail page's exhibition choice and its three chapters;
  - the artist hub's search and sort;
  - tag parsing and the submit gate of the become-an-artist form;
  - the notification page's time labels, icons, unread badge and newest-first in-place sort;
  - curation creation (selection toggling, the checks in order, the built record);
  - the board page (cover image, own boards, board creation);
  - the login and registration forms of the auth and profile screens;
  - the upload modal.

Some things are parameters rather than computations:

- The clock appears as an explicit "now" in milliseconds or as days since creation.
- Freshly generated ids and creation timestamps are passed in.
- The result of an awaited network call is passed in as an `Outcome`: succeeded, failed or
  threw.
- An awaited handler is split in two methods, one before the `await` and one after it. Each
  handler is also available as a single method that composes the two.
- Store calls that a screen makes are returned as values, for example the curation record to
  create or the board name to create. The screen's own state changes are stated in its method's
  contract.

Modules:

- `Wrappers`, `Text` and `Seqs` hold shared helpers:
  - `Option` and `Result`;
  - string trimming, splitting and decimal rendering;
  - the array `filter`/`find`/stable `sort` as functions on sequences.
- `AppStore` and `AppStoreProps` cover the store and what its actions promise.
- Each remaining module follows one source file.

## Model

| member | source | states |
|---|---|---|
| AppStore.Store.constructor | src/store/appStore.ts:120-132 | A new store is signed out and has empty feeds, lists and directory, with dark mode off and the create menu closed. |
| AppStore.Store.ToggleCreateMenu | src/store/appStore.ts:139-141 | The store afterwards is the snapshot action applied to the store before; only the menu flag changes. |
| AppStore.Store.ToggleLike | src/store/appStore.ts:145-160 | The store afterwards is `ToggleLike` applied to the store before (see the `AppStoreProps.ToggleLike*` lemmas). |
| AppStore.Store.ToggleBookmark | src/store/appStore.ts:162-168 | The store afterwards is `ToggleBookmark` applied to the store before (see the `AppStoreProps.ToggleBookmark*` lemmas). |
| AppStore.Store.ToggleFollow | src/store/appStore.ts:170-191 | The store afterwards is `ToggleFollow` applied to the store before. |
| AppStore.Store.BecomeArtist | src/store/appStore.ts:193-203 | The store afterwards is `BecomeArtist` applied to the store before. |
| AppStore.Store.AddArtwork | src/store/appStore.ts:205-211 | The store afterwards is `AddArtwork` applied to the store before. |
| AppStore.Store.FollowUser | src/store/appStore.ts:213-252 | The store afterwards is `FollowUser` applied to the store before. |
| AppStore.Store.UnfollowUser | src/store/appStore.ts:254-293 | The store afterwards is `UnfollowUser` applied to the store before. |
| AppStore.Store.ToggleDarkMode | src/store/appStore.ts:300-302 | The store afterwards is `ToggleDarkMode` applied to the store before. |
| AppStore.Store.LoadMockData | src/store/appStore.ts:304-648 | The store afterwards holds the bootstrap user, artists, directory and following list, with the given artwork feed. |
| AppStore.Store.LoadInitialData | src/store/appStore.ts:650-656 | The bootstrap data is loaded only when nobody is signed in. |
| AppStoreProps.ToggleLikeEffect | src/store/appStore.ts:145-160 | Only works with the given id change. Their like flag flips, and their counter moves by one in the matching direction. Comments and every other field and store field are untouched. |
| AppStoreProps.ToggleLikeTwice | src/store/appStore.ts:145-160 | Toggling a like twice restores the store exactly. |
| AppStoreProps.ToggleLikeUnknownId | src/store/appStore.ts:145-160 | Toggling an id not in the feed changes nothing. |
| AppStoreProps.ToggleLikeExample | src/store/__tests__/appStore.test.ts:87-97 | An unliked work with 10 likes becomes liked with 11. |
| AppStoreProps.ToggleLikeUnclamped | src/store/appStore.ts:150-156 | The unlike decrement is not clamped. A liked work showing 0 likes drops to -1. |
| AppStoreProps.ToggleBookmarkEffect | src/store/appStore.ts:162-168 | Only works with the given id change, and on them only the bookmark flag flips. Every other work and every other store field is untouched. |
| AppStoreProps.ToggleBookmarkTwice | src/store/appStore.ts:162-168 | Bookmarking twice restores the store. |
| AppStoreProps.ToggleBookmarkUnknownId | src/store/appStore.ts:162-168 | Bookmarking an id not in the feed changes nothing. |
| AppStoreProps.ToggleLikeKeepsConsistent | src/store/appStore.ts:145-160 | Toggling a like keeps the consistency invariant: no negative counts, a liked work has at least one like, cards agree with the following list, and follows are mirrored between users. |
| AppStoreProps.ToggleFollowEffect | src/store/appStore.ts:170-191 | The id enters the following list exactly when it was absent, and no other id changes membership. Matching artist cards flip and their followers counter moves by one. Nothing else changes. |
| AppStoreProps.ToggleFollowTwice | src/store/__tests__/appStore.test.ts:258-276 | Toggling a follow twice restores every artist card and the membership of the following list. |
| AppStoreProps.ToggleFollowKeepsConsistent | src/store/appStore.ts:170-191 | Toggling a follow keeps the consistency invariant. In particular, cards show "following" exactly for ids on the list. |
| AppStoreProps.FollowUserNoOp | src/store/appStore.ts:213-218 | Following when signed out, or when already following, changes nothing. |
| AppStoreProps.FollowUserEffect | src/store/appStore.ts:213-252 | The id is appended to the user's list and to the store list, and the following count rises by one. Each directory user with that id gains a follower and the user's id, keeping every other field. Each artist with that id gains a follower and shows "following", keeping every other field. Nothing else changes. |
| AppStoreProps.UnfollowUserNoOp | src/store/appStore.ts:254-258 | Unfollowing an id that is not followed changes nothing. |
| AppStoreProps.UnfollowUserEffect | src/store/appStore.ts:254-293 | The id leaves both lists and no other id's membership changes. Every counter drops by one but never below zero. The target's followers list loses exactly the user's id and keeps every other follower. The artist cards stop showing "following". Every other field of the user, the target and the cards, and every other record and store field, is kept. |
| AppStore.Snapshot.IsUserFollowing | src/store/appStore.ts:295-298 | The answer is yes exactly when someone is signed in and the id is on that user's own following list; signed out, it is always no. |
| AppStore.Store.IsUserFollowing | src/store/appStore.ts:295-298 | The query on the store object reads the signed-in user's own following list: yes exactly when a user is signed in and lists the id. |
| AppStoreProps.IsUserFollowingTracksActions | src/store/appStore.ts:213-298 | After followUser the query says yes for that id (when signed in); after unfollowUser it says no. The answer for every other id is unchanged by either action. |
| AppStoreProps.FollowThenUnfollow | src/store/appStore.ts:213-293 | Follow then unfollow restores the signed-in user exactly; an absent list comes back empty. The store list keeps every other id's membership. |
| AppStoreProps.FollowUserKeepsConsistent | src/store/appStore.ts:213-252 | followUser keeps the consistency invariant, including the two-sided follow records between the user and the directory. |
| AppStoreProps.UnfollowUserKeepsConsistent | src/store/appStore.ts:254-293 | unfollowUser keeps the consistency invariant. |
| AppStoreProps.BecomeArtistEffect | src/store/appStore.ts:193-203 | A signed-in user becomes an artist with the submitted name, bio and tags and the placeholder images, keeping every other field. When signed out, nothing changes. |
| AppStoreProps.AddArtworkEffect | src/store/appStore.ts:205-211 | The work is appended to the user's uploads (an absent list counts as empty) and the artwork count rises by one. Nothing else changes. |
| AppStoreProps.ProfileActionsKeepConsistent | src/store/appStore.ts:162-211 | becomeArtist, addArtwork, bookmarking and the two UI flags keep the consistency invariant. |
| AppStoreProps.CreateMenuTwice | src/store/__tests__/appStore.test.ts:43-59 | The create menu flips on every call, and two calls restore the store. |
| AppStoreProps.DarkModeTwice | src/store/appStore.ts:300-302 | Dark mode flips on every call, and two calls restore the store. |
| AppStoreProps.MockDataConsistent | src/store/appStore.ts:545-647 | The bootstrap data satisfies the consistency invariant. user1 follows artist1 and does not follow artist2. |
| AppStoreProps.LoadInitialDataOnce | src/store/appStore.ts:650-656 | Loading is idempotent, never replaces a signed-in user, and always leaves someone signed in. |
| Recommendation.ScoreBreakdown | src/utils/recommendation.ts:9-38 | Outside the freshness window, with no liked artist and no interaction, the score is 0.3·likes + 0.2·comments. Missing stats score 0. |
| Recommendation.LikedArtistBoost | src/utils/recommendation.ts:29-31 | Liking the work's artist adds exactly 50 to its score. |
| Recommendation.NewerScoresHigher | src/utils/recommendation.ts:21-26 | A younger work scores strictly higher inside the 30-day window, and the same outside it. It never scores lower. |
| Recommendation.ScoreNonNegative | src/utils/recommendation.ts:13-37 | With non-negative signals the score is non-negative and at least the likes part. |
| Recommendation.ScoreMonotone | src/utils/recommendation.ts:15-35 | More likes, more comments or a higher interaction score never lower the score. |
| Recommendation.HigherFirstTotal | src/utils/recommendation.ts:44-48 | The score comparator is a total preorder, so the sort is well defined. |
| Recommendation.SortByRecommendation | src/utils/recommendation.ts:40-49 | The result is a permutation of the input in non-increasing score order. |
| Recommendation.SortedHeadIsBest | src/utils/recommendation.ts:40-49 | The first recommended work scores at least as high as every input work. |
| Recommendation.FilterByCategory | src/utils/recommendation.ts:51-64 | No categories keeps the list as is. Otherwise every kept work's lower-cased title contains some lower-cased category, every such work is kept, and nothing is added. |
| Recommendation.FilterByCategoryAppend | src/utils/recommendation.ts:51-64 | Filtering a concatenation is concatenating the filtered parts, so kept works stay in feed order with their multiplicity. |
| Recommendation.FilterByCategorySingle | src/utils/recommendation.ts:51-64 | A single work is kept exactly when there are no categories or its title matches one. Together with the previous row this fixes the result for every feed. |
| Recommendation.EmptyCategoryKeepsAll | src/utils/recommendation.ts:60-62 | An empty category string matches every title, so the list is unchanged. |
| Recommendation.FilterByCategoryIdempotent | src/utils/recommendation.ts:51-64 | Filtering twice by the same categories is the same as once. |
| SafeArea.NotchOnlyOnIos | src/utils/safeArea.ts:14-15 | Off iOS there is no notch and no bottom inset. |
| SafeArea.IosStatusBar | src/utils/safeArea.ts:6-30 | On iOS the notch is detected exactly for the seven listed screen heights. The status bar is 44 with a notch and 20 without. |
| SafeArea.OtherStatusBar | src/utils/safeArea.ts:32 | Off iOS the status bar is the reported height, or 24 when it is missing or 0. |
| SafeArea.BottomInset | src/utils/safeArea.ts:35-40 | The bottom inset is 34 exactly for a notched iPhone and 0 otherwise. |
| SafeArea.InsetsAgree | src/utils/safeArea.ts:42-47 | The insets are the two getters plus zero side insets. |
| SafeArea.WithSafeAreaEffect | src/utils/safeArea.ts:49-53 | Every other style key is kept. Top and bottom padding gain the insets, with missing padding counting as 0. |
| ImagePicker.CancelWins | src/utils/imagePicker.ts:22-25 | A cancelled pick yields nothing, whatever else the response holds. |
| ImagePicker.PickResultSome | src/utils/imagePicker.ts:21-49 | An image is yielded exactly when the response is not cancelled, has no error and has a first asset with all four fields present and truthy. The image copies those fields. |
| ImagePicker.OnlyFirstAsset | src/utils/imagePicker.ts:33-34 | Assets after the first never affect the result. |
| ImagePicker.ZeroSizeRejected | src/utils/imagePicker.ts:35 | A zero file size counts as missing, so nothing is yielded. |
| ImagePicker.PickRoundTrip | src/utils/imagePicker.ts:33-41 | A complete image put into a response comes back unchanged. |
| ImagePicker.ImageSizeBoundary | src/utils/imagePicker.ts:53-56 | 10 MiB is accepted and one byte more is rejected. Acceptance is downward closed. |
| Api.HeadersFor | src/config/api.ts:70-76 | Both JSON headers are always present. Authorization is present exactly for a non-empty token and carries `Bearer <token>`. There are no other keys. |
| Api.MergeHeaders | src/config/api.ts:85-91 | Per-call headers override the defaults, other defaults are kept, and the keys are the union. |
| Api.DefaultEndpoints | src/config/api.ts:172-179 | The default artwork and curation list paths are page 1 with limits 20 and 10. |
| Api.PagedEndpointInjective | src/config/api.ts:172-179 | Distinct page/limit pairs give distinct endpoint strings. |
| Api.ApiClient.constructor | src/config/api.ts:51-57 | A new client has the environment's base URL, no token and only the default headers. |
| Api.ApiClient.SetToken | src/config/api.ts:60-62 | After setting a non-empty token, requests carry its bearer header. An empty token adds nothing. |
| Api.ApiClient.ClearToken | src/config/api.ts:65-67 | After clearing, requests carry only the default headers. |
| Api.ApiClient.RequestTarget | src/config/api.ts:83-91 | A request goes to base URL + endpoint, with the client headers overridden by the per-call ones. |
| CurationDetail.SelectCuration | src/screens/CurationDetailPage.tsx:29 | A curation is shown unless the list is empty. When some curation has the requested id, the first such curation is shown; otherwise the first curation is shown. |
| CurationDetail.SelectCurationFallback | src/screens/CurationDetailPage.tsx:29 | An unknown id falls back to the first curation. A known id selects a curation with that id. |
| CurationDetail.SelectExhibitionWorks | src/screens/CurationDetailPage.tsx:32-49 | The second exhibition is shown only for the id "exhibition2" and every other id shows the first. Its works are exactly that artist's works, in catalogue order. |
| CurationDetail.ChapterSize | src/screens/CurationDetailPage.tsx:60 | The chapter size is ceil(n/3): three chapters cover n works and a non-empty list has chapters of at least one. |
| CurationDetail.ChapterInRange | src/screens/CurationDetailPage.tsx:51-60 | Every work's chapter is 0, 1 or 2, so a chapter title always exists for it. |
| CurationDetail.ChapterMonotone | src/screens/CurationDetailPage.tsx:58-61 | Later works never land in an earlier chapter. |
| CurationDetail.Chaptered | src/screens/CurationDetailPage.tsx:58-61 | Tagging keeps every work in order and gives each a chapter below 3. |
| CurationDetail.AllChaptersInRange | src/screens/CurationDetailPage.tsx:87 | Indexing the chapter titles by a work's chapter is always in range. |
| CurationDetail.ChapterIsBlock | src/screens/CurationDetailPage.tsx:58-63 | Chapter k shows the contiguous block of works k·c to k·c+c, cut off at n, with c = ceil(n/3). So it shows at most c works. |
| CurationDetail.ChaptersPartition | src/screens/CurationDetailPage.tsx:58-63 | The three chapter views, concatenated, give back every work exactly once, in order. |
| CurationDetail.NoFourthChapter | src/screens/CurationDetailPage.tsx:63 | Any chapter other than 0 to 2 shows nothing. |
| ArtistHub.OrderIsTotalPreorder | src/screens/ArtistHubPage.tsx:93-103 | Each of the three comparators is a total preorder. |
| ArtistHub.FilteredArtists | src/screens/ArtistHubPage.tsx:90-103 | The list is exactly the artists whose name or bio contains the query, case-insensitively. It is ordered by followers or artworks, descending with missing stats as 0, or by name otherwise. |
| ArtistHub.EmptyQueryKeepsAll | src/screens/ArtistHubPage.tsx:90-92 | An empty query lists every artist. |
| ArtistHub.ResultNoLarger | src/screens/ArtistHubPage.tsx:90-103 | The list is never longer than the directory. |
| BecomeArtist.TrimmedPieces | src/components/modals/BecomeArtistModal.tsx:33 | There is one piece per comma-separated field, and piece i is field i trimmed. |
| BecomeArtist.ParseTags | src/components/modals/BecomeArtistModal.tsx:33 | Tags are non-empty, trimmed and comma-free. There is at most one more tag than there are commas. Every field that is not blank appears trimmed among the tags. |
| BecomeArtist.ParseTagsWithoutComma | src/components/modals/BecomeArtistModal.tsx:33 | Text without commas gives its trimmed self as the only tag, or no tag when blank. |
| BecomeArtist.ParseTagsKeepsOrder | src/components/modals/BecomeArtistModal.tsx:33 | The tags of "a,b" are the tags of the first field a followed by the tags of the rest b, for any b. With the previous row this fixes the tags of every input: the non-blank fields, trimmed, in order. |
| BecomeArtist.Submission | src/components/modals/BecomeArtistModal.tsx:28-42 | A profile is submitted exactly when name and bio are not blank. It carries their trimmed values and the parsed tags. |
| BecomeArtist.BlankNeverSubmits | src/components/modals/BecomeArtistModal.tsx:42 | A blank name or bio never submits. |
| BecomeArtist.BecomeArtistForm.constructor | src/components/modals/BecomeArtistModal.tsx:23-25 | The form starts empty. |
| BecomeArtist.BecomeArtistForm.HandleSubmit | src/components/modals/BecomeArtistModal.tsx:28-40 | Submitting hands the profile to the store and closes exactly when enabled. The form is then cleared; otherwise it is untouched. |
| NotificationPage.JustNowBucket | src/screens/NotificationPage.tsx:39-45 | Anything under an hour old, or in the future, is labelled "just now". |
| NotificationPage.HoursBucket | src/screens/NotificationPage.tsx:39-47 | From 1 to 23 whole hours, the label is the hour count followed by the hours suffix, and the count reads back exactly. |
| NotificationPage.DaysBucket | src/screens/NotificationPage.tsx:39-51 | From 24 hours on, the label is the whole-day count followed by the days suffix, and the count reads back exactly. |
| NotificationPage.IconsDistinct | src/screens/NotificationPage.tsx:24-37 | The four known kinds get four distinct icons, and every other kind gets the bell. |
| NotificationPage.PressCall | src/screens/NotificationPage.tsx:18-22 | Pressing marks the notification read exactly when it is unread, with its own id. |
| NotificationPage.Badge | src/screens/NotificationPage.tsx:113-119 | The badge is shown exactly when some notification is unread, and shows the unread count. |
| NotificationPage.SortNewestFirst | src/screens/NotificationPage.tsx:123-125 | The array is sorted in place into a permutation of itself, newest first. |
| CurationCreate.ToggleSelection | src/screens/CurationCreatePage.tsx:27-35 | Selecting flips the id's membership and no other membership. A new id goes to the end, and the list never gains copies. |
| CurationCreate.ToggleKeepsDistinct | src/screens/CurationCreatePage.tsx:27-35 | A selection without duplicates stays without duplicates. |
| CurationCreate.ToggleTwice | src/screens/CurationCreatePage.tsx:27-35 | Selecting twice restores the membership, and restores the list exactly when the id was new. |
| CurationCreate.SelectionState.constructor | src/screens/CurationCreatePage.tsx:25 | Nothing is selected at first. |
| CurationCreate.SelectionState.HandleSelectArtwork | src/screens/CurationCreatePage.tsx:27-35 | The selection afterwards is the toggled selection. |
| CurationCreate.CreateCuration | src/screens/CurationCreatePage.tsx:37-80 | The checks run in the source's order: blank title, blank description, nothing selected, signed out. A record is created exactly when all pass. |
| CurationCreate.CreatedRecord | src/screens/CurationCreatePage.tsx:58-74 | The record keeps the typed texts, the selection in selection order and the curator's id and name. The curator's avatar is theirs, or the default when it is absent or empty. The cover list is the first four selected works' images in catalogue order. The cover image is the first selected work's image, or the default when none is selected or that image is empty. |
| CurationCreate.SelectedObjectsAreSelection | src/screens/CurationCreatePage.tsx:58-60 | The cover candidates are exactly the selected catalogue works. |
| BoardPage.BoardCoverImage | src/screens/BoardPage.tsx:36-42 | An empty board has no cover. A cover is the image of a catalogue work whose id is the board's first artwork id. |
| BoardPage.CoverUsesFirstOnly | src/screens/BoardPage.tsx:40-41 | Only the first artwork id decides the cover. |
| BoardPage.CoverOfListedWork | src/screens/BoardPage.tsx:40-41 | The cover is the image of the first catalogue work with that id. |
| BoardPage.UserBoards | src/screens/BoardPage.tsx:156-166 | Signed out, there is no list. Signed in, every listed board is the user's and one of the input boards, and every board of the user's is listed. |
| BoardPage.UserBoardsAppend | src/screens/BoardPage.tsx:166-173 | Listing a concatenation of boards is concatenating the lists of its parts, so the user's boards keep their order and multiplicity. |
| BoardPage.UserBoardsSingle | src/screens/BoardPage.tsx:166-173 | A single board is listed exactly when it is the user's. With the previous row this fixes the list, and so the subtitle count, for every input. |
| BoardPage.AllOwnBoardsListed | src/screens/BoardPage.tsx:166 | When every board is the user's, all are listed in order. |
| BoardPage.CreateBoardForm.constructor | src/screens/BoardPage.tsx:21-22 | The form starts with an empty name and the modal closed. |
| BoardPage.CreateBoardForm.HandleCreateBoard | src/screens/BoardPage.tsx:24-34 | A board is created exactly when the name is not blank, under the trimmed name. The form is then reset and closed; otherwise it is untouched. |
| Forms.WhitespaceLoginPasses | src/screens/AuthPage.tsx:43 | The login check is for emptiness, not blankness: spaces pass and an empty email fails. |
| AuthPage.RegisterRejection | src/screens/AuthPage.tsx:64-73 | Registration is rejected exactly when a field is empty or the password is shorter than 6. |
| AuthPage.EmptinessBeforeLength | src/screens/AuthPage.tsx:65-73 | The emptiness notice comes before the length notice. Six spaces pass both checks. |
| AuthPage.ArtistToggleTwice | src/screens/AuthPage.tsx:185-188 | The artist checkbox flips only that flag, and twice restores the form. |
| AuthPage.AuthScreen.constructor | src/screens/AuthPage.tsx:31-38 | Both forms start empty and nothing is loading. |
| AuthPage.AuthScreen.BeginLogin | src/screens/AuthPage.tsx:42-48 | Login is attempted and loading starts exactly when both fields are non-empty. Otherwise the incomplete notice is shown. |
| AuthPage.AuthScreen.FinishLogin | src/screens/AuthPage.tsx:49-61 | Loading always stops. The screen closes only on success, and the notice matches the outcome. |
| AuthPage.AuthScreen.BeginRegister | src/screens/AuthPage.tsx:64-75 | Registration is attempted and loading starts exactly when no rejection applies. Otherwise that rejection's notice is shown. |
| AuthPage.AuthScreen.FinishRegister | src/screens/AuthPage.tsx:76-89 | Loading always stops and the notice matches the outcome. |
| AuthPage.AuthScreen.HandleLogin | src/screens/AuthPage.tsx:42-62 | The whole login handler: called exactly for a complete form, ending not loading, closed on success. |
| AuthPage.AuthScreen.HandleRegister | src/screens/AuthPage.tsx:64-90 | The whole register handler: called exactly when not rejected, ending not loading. |
| AuthPage.AuthScreen.ToggleArtist | src/screens/AuthPage.tsx:185-188 | The register form afterwards has the artist flag flipped. |
| ProfilePage.PortfolioOptional | src/screens/ProfilePage.tsx:124-128 | The portfolio is optional and the art style is required. |
| ProfilePage.ProfileScreen.constructor | src/screens/ProfilePage.tsx:24-37 | All forms start empty and all modals closed. |
| ProfilePage.ProfileScreen.HandleLogin | src/screens/ProfilePage.tsx:84-102 | Login is called with the form exactly when complete. Only success clears the form and closes the modal. |
| ProfilePage.ProfileScreen.HandleRegister | src/screens/ProfilePage.tsx:104-122 | Register is called exactly when all three fields are filled. Only success clears the form and closes the modal. |
| ProfilePage.ProfileScreen.HandleArtistRegister | src/screens/ProfilePage.tsx:124-132 | An application is accepted exactly when complete. It then clears the form and closes the modal. |
| UploadWork.NewArtwork | src/components/modals/UploadWorkModal.tsx:56-69 | The uploaded work carries the draft's image and texts and the uploader id, with zero counts and no like or bookmark. |
| UploadWork.UploadModal.constructor | src/components/modals/UploadWorkModal.tsx:18-21 | The modal starts empty and not uploading. |
| UploadWork.UploadModal.BeginPublish | src/components/modals/UploadWorkModal.tsx:44-50 | Publishing starts exactly with an image and a non-blank title. Otherwise nothing changes. |
| UploadWork.UploadModal.FinishPublish | src/components/modals/UploadWorkModal.tsx:52-86 | The new work is handed to the store, the form is cleared, the modal closes and loading stops. |
| UploadWork.UploadModal.HandlePublish | src/components/modals/UploadWorkModal.tsx:44-87 | The whole publish handler: a work is added exactly when an image is picked and the title is not blank. |
| UploadWork.UploadModal.HandleClose | src/components/modals/UploadWorkModal.tsx:89-94 | Closing clears the form. |

## Left out

- The store's `stories`, `curations`, `currentTab` and `selectedFilter` fields and their setters are not modelled. No modelled screen logic reads them.
- The store's mock artwork catalogue is a parameter of `LoadMockData`. The mock stories and curations are not modelled, and the artists' mock bios are empty strings. Only ids, counters and follow lists matter to the proved properties.
- The store calls `createBoard`, `createCuration`, `markNotificationAsRead`, `login` and `register` belong to a later revision of the store than the one modelled. The screens return these calls as values.
- Clock and date parsing are not modelled. `Date.now()` and `new Date(...)` become explicit parameters (milliseconds, or days since creation).
- A missing or unparsable `createdAt` makes the recommendation score NaN. This is not modelled: age is always a real number.
- Floating point is not modelled. Scores and insets are exact reals and counters are unbounded integers.
- `generateImageId` is not modelled; the id is a parameter.
- The network is not modelled. `fetch`, the response handling of `ApiClient.request`, its error throwing and the remaining endpoint wrappers are left out.
- Alerts, navigation, rendering and styles are not modelled. Alerts appear only as returned notices on the auth screen.
- `toLowerCase`, `trim` and `localeCompare` are modelled by ASCII lower-casing, the six ASCII whitespace characters (space, tab, line feed, vertical tab, form feed, carriage return) and code-point lexicographic order, because Unicode tables are outside the model. JavaScript's `trim` also strips the no-break space, the byte-order mark and the Unicode space separators; the model keeps them.
- Recommendation.SortByRecommendation: stability (ties keep input order) is not stated. Only permutation and score order are proved.
- ArtistHub.FilteredArtists: stability is not stated. Only permutation, membership and the per-key order are proved.
- NotificationPage.SortNewestFirst: stability is not stated. Timestamps are already parsed to milliseconds.
- AuthPage.AuthScreen.FinishRegister: closing the screen when the success alert is confirmed is not modelled, because the alert button is UI.
- UploadWork.UploadModal.FinishPublish: the `catch` branch is not modelled. The delay, id generation and clock are inputs, so no modelled step can throw. `onSuccess` is folded into the `closed` flag.
- The exhibition lookup on the curation detail page compares the route's `curationId` with exhibition ids. The curation center navigates with exhibition ids ("exhibition1" to "exhibition3"), so "exhibition2" reaches the second exhibition. For those ids the curation lookup itself finds nothing and falls back to the first curation. Every other id shows the first exhibition. The model keeps this behaviour as written (`CurationDetail.SelectExhibitionWorks`, `CurationDetail.SelectCurationFallback`).
- String lengths are counted in characters, not UTF-16 code units. JavaScript's `.length` counts a character outside the Basic Multilingual Plane (an emoji, say) twice, so a password of three such characters passes the six-character check in the app but fails `AuthPage.RegisterRejection`.
- The auth screen's `closed` flag records that `handleClose` was called. Whether it navigates back depends on the `navigation` prop, which is not modelled.
