/** The client state store (`src/store/appStore.ts`): a single store object whose
    actions replace some of its fields with new values computed from the old ones.

    `Snapshot` is the value of the store's seven modelled fields; every action is a
    function on snapshots (the partial object each action hands to `set`), and the
    class `Store` holds the fields and performs the actions in place, each method
    proved to leave the store in the snapshot its function describes. The lemmas
    state what the actions promise about the snapshots. */
module AppStore {
  import opened Wrappers
  import opened Seqs

  // ---------------------------------------------------------------- entities

  /** A work a user uploaded; the record carries the fields the upload modal fills in. */
  datatype UserArtwork = UserArtwork(
    id: string, title: string, description: string, image: string, artistId: string,
    createdAt: string, likes: int, comments: int, isLiked: bool, isBookmarked: bool)

  datatype User = User(
    id: string, name: string, username: string, email: string, isArtist: bool,
    followers: int, following: int, artworks: int,
    avatar: Option<string>, cover: Option<string>, bio: Option<string>,
    tags: Option<seq<string>>, userArtworks: Option<seq<UserArtwork>>,
    followersList: Option<seq<string>>, followingList: Option<seq<string>>)
  {
    /** `user.followingList?.includes(id)`: an absent list follows nobody. */
    predicate Follows(id: string) {
      id in followingList.GetOr([])
    }
  }

  datatype ArtistStats = ArtistStats(artworks: int, followers: int, curations: int)

  datatype Artist = Artist(id: string, name: string, bio: string, stats: ArtistStats, isFollowing: bool)

  datatype ArtworkStats = ArtworkStats(likes: int, comments: int)

  datatype Artwork = Artwork(
    id: string, title: string, artistId: string, image: string,
    stats: ArtworkStats, isLiked: bool, isBookmarked: bool)

  /** The argument of `becomeArtist`. */
  datatype ArtistProfile = ArtistProfile(name: string, bio: string, tags: seq<string>)

  const PlaceholderAvatar := "https://via.placeholder.com/120"
  const PlaceholderCover := "https://via.placeholder.com/400x200/8b5cf6/ffffff?text=Art+Cover"

  /** `Math.max(0, x)`. */
  function Max0(x: int): int {
    if x > 0 then x else 0
  }

  // ---------------------------------------------------------------- per-entity updates

  function LikeToggled(arts: seq<Artwork>, id: string): seq<Artwork> {
    seq(|arts|, i requires 0 <= i < |arts| =>
      var a := arts[i];
      if a.id == id then
        a.(isLiked := !a.isLiked,
           stats := a.stats.(likes := if a.isLiked then a.stats.likes - 1 else a.stats.likes + 1))
      else a)
  }

  function BookmarkToggled(arts: seq<Artwork>, id: string): seq<Artwork> {
    seq(|arts|, i requires 0 <= i < |arts| =>
      var a := arts[i];
      if a.id == id then a.(isBookmarked := !a.isBookmarked) else a)
  }

  function FollowToggled(artists: seq<Artist>, id: string): seq<Artist> {
    seq(|artists|, i requires 0 <= i < |artists| =>
      var a := artists[i];
      if a.id == id then
        a.(isFollowing := !a.isFollowing,
           stats := a.stats.(followers := if a.isFollowing then a.stats.followers - 1 else a.stats.followers + 1))
      else a)
  }

  function ArtistFollowed(artists: seq<Artist>, id: string): seq<Artist> {
    seq(|artists|, i requires 0 <= i < |artists| =>
      var a := artists[i];
      if a.id == id then a.(isFollowing := true, stats := a.stats.(followers := a.stats.followers + 1))
      else a)
  }

  function ArtistUnfollowed(artists: seq<Artist>, id: string): seq<Artist> {
    seq(|artists|, i requires 0 <= i < |artists| =>
      var a := artists[i];
      if a.id == id then a.(isFollowing := false, stats := a.stats.(followers := Max0(a.stats.followers - 1)))
      else a)
  }

  function FollowerAdded(users: seq<User>, targetId: string, followerId: string): seq<User> {
    seq(|users|, i requires 0 <= i < |users| =>
      var u := users[i];
      if u.id == targetId then
        u.(followersList := Some(u.followersList.GetOr([]) + [followerId]), followers := u.followers + 1)
      else u)
  }

  function FollowerRemoved(users: seq<User>, targetId: string, followerId: string): seq<User> {
    seq(|users|, i requires 0 <= i < |users| =>
      var u := users[i];
      if u.id == targetId then
        u.(followersList := Some(RemoveAll(u.followersList.GetOr([]), followerId)), followers := Max0(u.followers - 1))
      else u)
  }

  // ---------------------------------------------------------------- mock bootstrap (follow relations)

  const MockUser := User("user1", "我的主页", "myprofile", "user@example.com", false, 256, 89, 12,
                         None, None, None, None, None, Some(["artist2"]), Some(["artist1"]))

  const MockArtists := [
    Artist("artist1", "杨西屏", "", ArtistStats(14, 2800, 5), true),
    Artist("artist2", "王正春", "", ArtistStats(6, 1650, 3), false)]

  const MockUsers := [
    MockUser,
    User("artist1", "杨西屏", "yangxiping", "yangxiping@example.com", true, 2800, 120, 14,
         Some("./images/artists/yangxiping_avatar.jpg"), None, Some(""), None, None, Some(["user1"]), Some([])),
    User("artist2", "王正春", "wangzhengchun", "wangzhengchun@example.com", true, 1650, 85, 6,
         Some("./images/artists/wangzhengchun_avatar.jpg"), None, Some(""), None, None, Some([]), Some(["user1"]))]

  // ---------------------------------------------------------------- the store as a value

  datatype Snapshot = Snapshot(
    currentUser: Option<User>, artworks: seq<Artwork>, artists: seq<Artist>,
    followingList: seq<string>, allUsers: seq<User>, isDarkMode: bool, isCreateMenuOpen: bool)
  {
    function ToggleCreateMenu(): Snapshot {
      this.(isCreateMenuOpen := !isCreateMenuOpen)
    }

    function ToggleDarkMode(): Snapshot {
      this.(isDarkMode := !isDarkMode)
    }

    function ToggleLike(artworkId: string): Snapshot {
      this.(artworks := LikeToggled(artworks, artworkId))
    }

    function ToggleBookmark(artworkId: string): Snapshot {
      this.(artworks := BookmarkToggled(artworks, artworkId))
    }

    function ToggleFollow(artistId: string): Snapshot {
      this.(followingList := if artistId in followingList then RemoveAll(followingList, artistId)
                             else followingList + [artistId],
            artists := FollowToggled(artists, artistId))
    }

    function BecomeArtist(profile: ArtistProfile): Snapshot {
      this.(currentUser := match currentUser
        case None => None
        case Some(u) => Some(u.(name := profile.name, bio := Some(profile.bio), tags := Some(profile.tags),
                                isArtist := true, avatar := Some(PlaceholderAvatar), cover := Some(PlaceholderCover))))
    }

    function AddArtwork(artwork: UserArtwork): Snapshot {
      this.(currentUser := match currentUser
        case None => None
        case Some(u) => Some(u.(userArtworks := Some(u.userArtworks.GetOr([]) + [artwork]), artworks := u.artworks + 1)))
    }

    function FollowUser(artistId: string): Snapshot {
      match currentUser
      case None => this
      case Some(me) =>
        if me.Follows(artistId) then this
        else this.(
          currentUser := Some(me.(followingList := Some(me.followingList.GetOr([]) + [artistId]),
                                  following := me.following + 1)),
          allUsers := FollowerAdded(allUsers, artistId, me.id),
          artists := ArtistFollowed(artists, artistId),
          followingList := followingList + [artistId])
    }

    function UnfollowUser(artistId: string): Snapshot {
      match currentUser
      case None => this
      case Some(me) =>
        if !me.Follows(artistId) then this
        else this.(
          currentUser := Some(me.(followingList := Some(RemoveAll(me.followingList.GetOr([]), artistId)),
                                  following := Max0(me.following - 1))),
          allUsers := FollowerRemoved(allUsers, artistId, me.id),
          artists := ArtistUnfollowed(artists, artistId),
          followingList := RemoveAll(followingList, artistId))
    }

    /** `isUserFollowing`: asks the signed-in user's own list; no user follows nobody. */
    predicate IsUserFollowing(artistId: string): (following: bool)
      ensures currentUser.None? ==> !following
      ensures following <==> currentUser.Some? && artistId in currentUser.value.followingList.GetOr([])
    {
      currentUser.Some? && currentUser.value.Follows(artistId)
    }

    /** `loadMockData`, restricted to what the follow logic depends on; the bundled
        artwork catalogue is passed in. */
    function LoadMockData(catalog: seq<Artwork>): Snapshot {
      this.(currentUser := Some(MockUser), artworks := catalog, artists := MockArtists,
            allUsers := MockUsers, followingList := ["artist1"])
    }

    function LoadInitialData(catalog: seq<Artwork>): Snapshot {
      if currentUser.None? then LoadMockData(catalog) else this
    }
  }

  const Initial := Snapshot(None, [], [], [], [], false, false)

  // ---------------------------------------------------------------- the store object

  class Store {
    var currentUser: Option<User>
    var artworks: seq<Artwork>
    var artists: seq<Artist>
    var followingList: seq<string>
    var allUsers: seq<User>
    var isDarkMode: bool
    var isCreateMenuOpen: bool

    function State(): Snapshot
      reads this
    {
      Snapshot(currentUser, artworks, artists, followingList, allUsers, isDarkMode, isCreateMenuOpen)
    }

    constructor ()
      ensures State() == Initial
    {
      currentUser := None;
      artworks, artists, followingList, allUsers := [], [], [], [];
      isDarkMode, isCreateMenuOpen := false, false;
    }

    method ToggleCreateMenu()
      modifies this
      ensures State() == old(State()).ToggleCreateMenu()
    {
      isCreateMenuOpen := !isCreateMenuOpen;
    }

    method ToggleDarkMode()
      modifies this
      ensures State() == old(State()).ToggleDarkMode()
    {
      isDarkMode := !isDarkMode;
    }

    method ToggleLike(artworkId: string)
      modifies this
      ensures State() == old(State()).ToggleLike(artworkId)
    {
      artworks := LikeToggled(artworks, artworkId);
    }

    method ToggleBookmark(artworkId: string)
      modifies this
      ensures State() == old(State()).ToggleBookmark(artworkId)
    {
      artworks := BookmarkToggled(artworks, artworkId);
    }

    method ToggleFollow(artistId: string)
      modifies this
      ensures State() == old(State()).ToggleFollow(artistId)
    {
      var wasFollowing := artistId in followingList;
      followingList := if wasFollowing then RemoveAll(followingList, artistId) else followingList + [artistId];
      artists := FollowToggled(artists, artistId);
    }

    method BecomeArtist(profile: ArtistProfile)
      modifies this
      ensures State() == old(State()).BecomeArtist(profile)
    {
      if currentUser.Some? {
        var u := currentUser.value;
        currentUser := Some(u.(name := profile.name, bio := Some(profile.bio), tags := Some(profile.tags),
                               isArtist := true, avatar := Some(PlaceholderAvatar), cover := Some(PlaceholderCover)));
      }
    }

    method AddArtwork(artwork: UserArtwork)
      modifies this
      ensures State() == old(State()).AddArtwork(artwork)
    {
      if currentUser.Some? {
        var u := currentUser.value;
        currentUser := Some(u.(userArtworks := Some(u.userArtworks.GetOr([]) + [artwork]), artworks := u.artworks + 1));
      }
    }

    method FollowUser(artistId: string)
      modifies this
      ensures State() == old(State()).FollowUser(artistId)
    {
      if currentUser.None? {
        return;
      }
      var me := currentUser.value;
      if me.Follows(artistId) {
        return;
      }
      currentUser := Some(me.(followingList := Some(me.followingList.GetOr([]) + [artistId]),
                              following := me.following + 1));
      allUsers := FollowerAdded(allUsers, artistId, me.id);
      artists := ArtistFollowed(artists, artistId);
      followingList := followingList + [artistId];
    }

    method UnfollowUser(artistId: string)
      modifies this
      ensures State() == old(State()).UnfollowUser(artistId)
    {
      if currentUser.None? {
        return;
      }
      var me := currentUser.value;
      if !me.Follows(artistId) {
        return;
      }
      currentUser := Some(me.(followingList := Some(RemoveAll(me.followingList.GetOr([]), artistId)),
                              following := Max0(me.following - 1)));
      allUsers := FollowerRemoved(allUsers, artistId, me.id);
      artists := ArtistUnfollowed(artists, artistId);
      followingList := RemoveAll(followingList, artistId);
    }

    predicate IsUserFollowing(artistId: string): (following: bool)
      reads this
      ensures following <==> currentUser.Some? && artistId in currentUser.value.followingList.GetOr([])
    {
      State().IsUserFollowing(artistId)
    }

    method LoadMockData(catalog: seq<Artwork>)
      modifies this
      ensures State() == old(State()).LoadMockData(catalog)
    {
      currentUser := Some(MockUser);
      artworks := catalog;
      artists := MockArtists;
      allUsers := MockUsers;
      followingList := ["artist1"];
    }

    method LoadInitialData(catalog: seq<Artwork>)
      modifies this
      ensures State() == old(State()).LoadInitialData(catalog)
    {
      if currentUser.None? {
        LoadMockData(catalog);
      }
    }
  }
}
