/** What the store's actions promise: which fields each one touches, which
    pairs of actions undo each other, and a consistency invariant that the
    bootstrap state has and every action keeps. */
module AppStoreProps {
  import opened Wrappers
  import opened Seqs
  import opened AppStore

  // ---------------------------------------------------------------- consistency

  /** Like counters are never negative, and a liked work has at least one like. */
  ghost predicate ArtworkCountersSane(arts: seq<Artwork>) {
    forall i | 0 <= i < |arts| :: arts[i].stats.likes >= 0 && (arts[i].isLiked ==> arts[i].stats.likes >= 1)
  }

  /** Follower counters are never negative, and a followed artist has at least one follower. */
  ghost predicate ArtistCountersSane(artists: seq<Artist>) {
    forall i | 0 <= i < |artists| :: artists[i].stats.followers >= 0 &&
      (artists[i].isFollowing ==> artists[i].stats.followers >= 1)
  }

  /** An artist card shows "following" exactly when its id is on the store's following list. */
  ghost predicate FlagsMatchList(s: Snapshot) {
    forall i | 0 <= i < |s.artists| :: s.artists[i].isFollowing <==> s.artists[i].id in s.followingList
  }

  /** Between the signed-in user and every other known user, each follow is recorded on
      both sides: the signed-in user follows them exactly when they list the signed-in user
      as a follower, and they follow the signed-in user exactly when the signed-in user
      lists them as a follower. */
  ghost predicate Mirrored(s: Snapshot) {
    s.currentUser.Some? ==>
      var me := s.currentUser.value;
      forall i | 0 <= i < |s.allUsers| && s.allUsers[i].id != me.id ::
        && ((s.allUsers[i].id in me.followingList.GetOr([])) <==> (me.id in s.allUsers[i].followersList.GetOr([])))
        && ((me.id in s.allUsers[i].followingList.GetOr([])) <==> (s.allUsers[i].id in me.followersList.GetOr([])))
  }

  ghost predicate Consistent(s: Snapshot) {
    ArtworkCountersSane(s.artworks) && ArtistCountersSane(s.artists) && FlagsMatchList(s) && Mirrored(s)
  }

  // ---------------------------------------------------------------- toggleLike / toggleBookmark

  /** toggleLike touches only the works with that id: it flips the like and moves the
      counter by one in the matching direction. */
  lemma ToggleLikeEffect(s: Snapshot, id: string, i: int)
    requires 0 <= i < |s.artworks|
    ensures var r := s.ToggleLike(id);
      |r.artworks| == |s.artworks| && r.(artworks := s.artworks) == s &&
      (s.artworks[i].id != id ==> r.artworks[i] == s.artworks[i]) &&
      (s.artworks[i].id == id ==>
        r.artworks[i].isLiked == !s.artworks[i].isLiked &&
        r.artworks[i].stats.likes == s.artworks[i].stats.likes + (if s.artworks[i].isLiked then -1 else 1) &&
        r.artworks[i].(isLiked := s.artworks[i].isLiked, stats := s.artworks[i].stats) == s.artworks[i] &&
        r.artworks[i].stats.comments == s.artworks[i].stats.comments)
  {
  }

  lemma {:induction false} ToggleLikeTwice(s: Snapshot, id: string)
    ensures s.ToggleLike(id).ToggleLike(id) == s
  {
    var r := s.ToggleLike(id).ToggleLike(id);
    assert r.artworks == s.artworks by {
      forall i | 0 <= i < |s.artworks|
        ensures r.artworks[i] == s.artworks[i]
      {
        ToggleLikeEffect(s, id, i);
        ToggleLikeEffect(s.ToggleLike(id), id, i);
      }
    }
  }

  lemma ToggleLikeUnknownId(s: Snapshot, id: string)
    requires forall i | 0 <= i < |s.artworks| :: s.artworks[i].id != id
    ensures s.ToggleLike(id) == s
  {
    assert s.ToggleLike(id).artworks == s.artworks;
  }

  /** The store's own test: a work with 10 likes, not liked, goes to 11 and liked. */
  lemma ToggleLikeExample()
    ensures var a := Artwork("1", "Test Artwork", "artist1", "img", ArtworkStats(10, 0), false, false);
      var r := Initial.(artworks := [a]).ToggleLike("1");
      r.artworks[0].stats.likes == 11 && r.artworks[0].isLiked
  {
  }

  /** The decrement is not clamped: a liked work whose counter already shows 0 drops to -1.
      Consistent states never contain such a work. */
  lemma ToggleLikeUnclamped()
    ensures var a := Artwork("1", "", "artist1", "", ArtworkStats(0, 0), true, false);
      Initial.(artworks := [a]).ToggleLike("1").artworks[0].stats.likes == -1
  {
  }

  /** toggleBookmark touches only the works with that id, and on them only the bookmark flag. */
  lemma ToggleBookmarkEffect(s: Snapshot, id: string, i: int)
    requires 0 <= i < |s.artworks|
    ensures var r := s.ToggleBookmark(id);
      |r.artworks| == |s.artworks| && r.(artworks := s.artworks) == s &&
      (s.artworks[i].id != id ==> r.artworks[i] == s.artworks[i]) &&
      (s.artworks[i].id == id ==>
        r.artworks[i].isBookmarked == !s.artworks[i].isBookmarked &&
        r.artworks[i].(isBookmarked := s.artworks[i].isBookmarked) == s.artworks[i])
  {
  }

  lemma {:induction false} ToggleBookmarkTwice(s: Snapshot, id: string)
    ensures s.ToggleBookmark(id).ToggleBookmark(id) == s
  {
    var r := s.ToggleBookmark(id).ToggleBookmark(id);
    assert r.artworks == s.artworks by {
      forall i | 0 <= i < |s.artworks|
        ensures r.artworks[i] == s.artworks[i]
      {
        ToggleBookmarkEffect(s, id, i);
        ToggleBookmarkEffect(s.ToggleBookmark(id), id, i);
      }
    }
  }

  lemma ToggleBookmarkUnknownId(s: Snapshot, id: string)
    requires forall i | 0 <= i < |s.artworks| :: s.artworks[i].id != id
    ensures s.ToggleBookmark(id) == s
  {
    assert s.ToggleBookmark(id).artworks == s.artworks;
  }

  lemma {:induction false} ToggleLikeKeepsConsistent(s: Snapshot, id: string)
    requires Consistent(s)
    ensures Consistent(s.ToggleLike(id))
  {
    var r := s.ToggleLike(id);
    forall i | 0 <= i < |r.artworks|
      ensures r.artworks[i].stats.likes >= 0 && (r.artworks[i].isLiked ==> r.artworks[i].stats.likes >= 1)
    {
      ToggleLikeEffect(s, id, i);
    }
  }

  // ---------------------------------------------------------------- toggleFollow

  lemma ToggleFollowEffect(s: Snapshot, id: string, i: int)
    requires 0 <= i < |s.artists|
    ensures var r := s.ToggleFollow(id);
      |r.artists| == |s.artists| &&
      r.(artists := s.artists, followingList := s.followingList) == s &&
      (id in r.followingList <==> id !in s.followingList) &&
      (forall x | x != id :: x in r.followingList <==> x in s.followingList) &&
      (s.artists[i].id != id ==> r.artists[i] == s.artists[i]) &&
      (s.artists[i].id == id ==>
        r.artists[i].isFollowing == !s.artists[i].isFollowing &&
        r.artists[i].stats.followers == s.artists[i].stats.followers + (if s.artists[i].isFollowing then -1 else 1) &&
        r.artists[i].(isFollowing := s.artists[i].isFollowing, stats := s.artists[i].stats) == s.artists[i])
  {
  }

  /** Following twice is a no-op on the artist cards and on membership of the list
      (an artist removed and re-added moves to the end of the list). */
  lemma {:induction false} ToggleFollowTwice(s: Snapshot, id: string)
    ensures var r := s.ToggleFollow(id).ToggleFollow(id);
      r.artists == s.artists && r.(followingList := s.followingList) == s &&
      (forall x :: x in r.followingList <==> x in s.followingList)
  {
    var m := s.ToggleFollow(id);
    var r := m.ToggleFollow(id);
    assert r.artists == s.artists by {
      forall i | 0 <= i < |s.artists|
        ensures r.artists[i] == s.artists[i]
      {
        ToggleFollowEffect(s, id, i);
        ToggleFollowEffect(m, id, i);
      }
    }
    if 0 < |s.artists| {
      ToggleFollowEffect(s, id, 0);
      ToggleFollowEffect(m, id, 0);
    } else {
      assert forall x | x != id :: x in m.followingList <==> x in s.followingList;
      assert forall x | x != id :: x in r.followingList <==> x in m.followingList;
    }
  }

  lemma {:induction false} ToggleFollowKeepsConsistent(s: Snapshot, id: string)
    requires Consistent(s)
    ensures Consistent(s.ToggleFollow(id))
  {
    var r := s.ToggleFollow(id);
    forall i | 0 <= i < |r.artists|
      ensures r.artists[i].stats.followers >= 0 && (r.artists[i].isFollowing ==> r.artists[i].stats.followers >= 1)
      ensures r.artists[i].isFollowing <==> r.artists[i].id in r.followingList
    {
      ToggleFollowEffect(s, id, i);
    }
  }

  // ---------------------------------------------------------------- followUser / unfollowUser

  lemma FollowUserNoOp(s: Snapshot, id: string)
    requires s.currentUser.None? || s.IsUserFollowing(id)
    ensures s.FollowUser(id) == s
  {
  }

  /** followUser with a signed-in user not yet following `id`: the user's list gains
      `id` and their count one; every user and artist with that id gains a follower
      (and the user's id on their list); the store list gains `id`; nothing else changes. */
  lemma FollowUserEffect(s: Snapshot, id: string)
    requires s.currentUser.Some? && !s.IsUserFollowing(id)
    ensures var me := s.currentUser.value; var r := s.FollowUser(id);
      r.IsUserFollowing(id) &&
      r.currentUser.value.followingList == Some(me.followingList.GetOr([]) + [id]) &&
      r.currentUser.value.following == me.following + 1 &&
      r.currentUser.value.(followingList := me.followingList, following := me.following) == me &&
      r.followingList == s.followingList + [id] &&
      r.(currentUser := s.currentUser, allUsers := s.allUsers, artists := s.artists, followingList := s.followingList) == s &&
      |r.allUsers| == |s.allUsers| && |r.artists| == |s.artists| &&
      (forall i | 0 <= i < |s.allUsers| ::
        if s.allUsers[i].id == id then
          r.allUsers[i].followers == s.allUsers[i].followers + 1 &&
          r.allUsers[i].followersList == Some(s.allUsers[i].followersList.GetOr([]) + [me.id]) &&
          r.allUsers[i].(followers := s.allUsers[i].followers, followersList := s.allUsers[i].followersList) == s.allUsers[i]
        else r.allUsers[i] == s.allUsers[i]) &&
      (forall i | 0 <= i < |s.artists| ::
        if s.artists[i].id == id then
          r.artists[i].isFollowing && r.artists[i].stats.followers == s.artists[i].stats.followers + 1 &&
          r.artists[i].stats.(followers := s.artists[i].stats.followers) == s.artists[i].stats &&
          r.artists[i].(isFollowing := s.artists[i].isFollowing, stats := s.artists[i].stats) == s.artists[i]
        else r.artists[i] == s.artists[i])
  {
  }

  lemma UnfollowUserNoOp(s: Snapshot, id: string)
    requires !s.IsUserFollowing(id)
    ensures s.UnfollowUser(id) == s
  {
  }

  /** unfollowUser for a followed `id`: `id` leaves both lists, counters drop by one
      but never below zero, the target loses exactly the signed-in user as a follower,
      the artist cards stop showing "following", and nothing else changes. */
  lemma UnfollowUserEffect(s: Snapshot, id: string)
    requires s.IsUserFollowing(id)
    ensures var me := s.currentUser.value; var r := s.UnfollowUser(id);
      !r.IsUserFollowing(id) && id !in r.followingList &&
      r.currentUser.value.following == Max0(me.following - 1) && r.currentUser.value.following >= 0 &&
      r.currentUser.value.followingList == Some(RemoveAll(me.followingList.GetOr([]), id)) &&
      r.currentUser.value.(followingList := me.followingList, following := me.following) == me &&
      (forall x | x != id :: x in r.followingList <==> x in s.followingList) &&
      (forall x | x != id :: r.currentUser.value.Follows(x) <==> me.Follows(x)) &&
      |r.allUsers| == |s.allUsers| && |r.artists| == |s.artists| &&
      (forall i | 0 <= i < |s.allUsers| ::
        if s.allUsers[i].id == id then
          r.allUsers[i].followers == Max0(s.allUsers[i].followers - 1) &&
          r.allUsers[i].followersList == Some(RemoveAll(s.allUsers[i].followersList.GetOr([]), me.id)) &&
          me.id !in r.allUsers[i].followersList.GetOr([]) &&
          (forall x | x != me.id :: x in r.allUsers[i].followersList.GetOr([]) <==> x in s.allUsers[i].followersList.GetOr([])) &&
          r.allUsers[i].(followers := s.allUsers[i].followers, followersList := s.allUsers[i].followersList) == s.allUsers[i]
        else r.allUsers[i] == s.allUsers[i]) &&
      (forall i | 0 <= i < |s.artists| ::
        if s.artists[i].id == id then
          !r.artists[i].isFollowing && r.artists[i].stats.followers == Max0(s.artists[i].stats.followers - 1) &&
          r.artists[i].stats.(followers := s.artists[i].stats.followers) == s.artists[i].stats &&
          r.artists[i].(isFollowing := s.artists[i].isFollowing, stats := s.artists[i].stats) == s.artists[i]
        else r.artists[i] == s.artists[i]) &&
      r.(currentUser := s.currentUser, allUsers := s.allUsers, artists := s.artists, followingList := s.followingList) == s
  {
  }

  /** `isUserFollowing` answers for the signed-in user's own list: followUser makes it
      true for the followed id, unfollowUser makes it false, and the answer for every
      other id is unchanged by either. */
  lemma IsUserFollowingTracksActions(s: Snapshot, id: string, other: string)
    requires other != id
    ensures s.currentUser.None? ==> !s.IsUserFollowing(id)
    ensures s.currentUser.Some? ==> s.FollowUser(id).IsUserFollowing(id)
    ensures !s.UnfollowUser(id).IsUserFollowing(id)
    ensures s.FollowUser(id).IsUserFollowing(other) == s.IsUserFollowing(other)
    ensures s.UnfollowUser(id).IsUserFollowing(other) == s.IsUserFollowing(other)
  {
    if s.currentUser.Some? {
      if !s.IsUserFollowing(id) {
        FollowUserEffect(s, id);
      } else {
        UnfollowUserEffect(s, id);
      }
    }
  }

  /** Following and then unfollowing restores the signed-in user's follow list and count
      (an absent list comes back empty) and leaves `id` off the store list. */
  lemma FollowThenUnfollow(s: Snapshot, id: string)
    requires s.currentUser.Some? && !s.IsUserFollowing(id) && s.currentUser.value.following >= 0
    ensures var me := s.currentUser.value; var r := s.FollowUser(id).UnfollowUser(id);
      r.currentUser == Some(me.(followingList := Some(me.followingList.GetOr([])))) &&
      id !in r.followingList &&
      (forall x | x != id :: x in r.followingList <==> x in s.followingList)
  {
    var me := s.currentUser.value;
    var l := me.followingList.GetOr([]);
    FollowUserEffect(s, id);
    var m := s.FollowUser(id);
    UnfollowUserEffect(m, id);
    assert id !in l;
    RemoveAppended(l, id);
  }

  lemma {:induction false} FollowUserKeepsConsistent(s: Snapshot, id: string)
    requires Consistent(s)
    ensures Consistent(s.FollowUser(id))
  {
    if s.currentUser.Some? && !s.IsUserFollowing(id) {
      FollowUserEffect(s, id);
      var me := s.currentUser.value;
      var r := s.FollowUser(id);
      var me' := r.currentUser.value;
      forall i | 0 <= i < |r.allUsers| && r.allUsers[i].id != me'.id
        ensures (r.allUsers[i].id in me'.followingList.GetOr([])) <==> (me'.id in r.allUsers[i].followersList.GetOr([]))
      {
        assert r.allUsers[i].id == s.allUsers[i].id;
      }
      forall i | 0 <= i < |r.artists|
        ensures r.artists[i].isFollowing <==> r.artists[i].id in r.followingList
      {
      }
    }
  }

  lemma {:induction false} UnfollowUserKeepsConsistent(s: Snapshot, id: string)
    requires Consistent(s)
    ensures Consistent(s.UnfollowUser(id))
  {
    if s.IsUserFollowing(id) {
      UnfollowUserEffect(s, id);
      var me := s.currentUser.value;
      var r := s.UnfollowUser(id);
      var me' := r.currentUser.value;
      forall i | 0 <= i < |r.allUsers| && r.allUsers[i].id != me'.id
        ensures (r.allUsers[i].id in me'.followingList.GetOr([])) <==> (me'.id in r.allUsers[i].followersList.GetOr([]))
      {
        assert r.allUsers[i].id == s.allUsers[i].id;
      }
      forall i | 0 <= i < |r.artists|
        ensures r.artists[i].isFollowing <==> r.artists[i].id in r.followingList
      {
      }
    }
  }

  // ---------------------------------------------------------------- profile actions

  /** becomeArtist turns a signed-in user into an artist with the submitted profile and
      placeholder images, keeping identity, counters and follow lists; it needs a user. */
  lemma BecomeArtistEffect(s: Snapshot, p: ArtistProfile)
    ensures var r := s.BecomeArtist(p);
      r.(currentUser := s.currentUser) == s &&
      (s.currentUser.None? ==> r.currentUser.None?) &&
      (s.currentUser.Some? ==>
        var u := s.currentUser.value; var v := r.currentUser.value;
        r.currentUser.Some? && v.isArtist && v.name == p.name && v.bio == Some(p.bio) && v.tags == Some(p.tags) &&
        v.avatar == Some(PlaceholderAvatar) && v.cover == Some(PlaceholderCover) &&
        v.(name := u.name, bio := u.bio, tags := u.tags, isArtist := u.isArtist, avatar := u.avatar, cover := u.cover) == u)
  {
  }

  /** addArtwork appends the work to the user's uploads and counts it. */
  lemma AddArtworkEffect(s: Snapshot, w: UserArtwork)
    ensures var r := s.AddArtwork(w);
      r.(currentUser := s.currentUser) == s &&
      (s.currentUser.None? ==> r.currentUser.None?) &&
      (s.currentUser.Some? ==>
        var u := s.currentUser.value; var v := r.currentUser.value;
        r.currentUser.Some? && v.userArtworks == Some(u.userArtworks.GetOr([]) + [w]) &&
        v.artworks == u.artworks + 1 && |v.userArtworks.value| == |u.userArtworks.GetOr([])| + 1 &&
        v.(userArtworks := u.userArtworks, artworks := u.artworks) == u)
  {
  }

  lemma ProfileActionsKeepConsistent(s: Snapshot, p: ArtistProfile, w: UserArtwork)
    requires Consistent(s)
    ensures Consistent(s.BecomeArtist(p)) && Consistent(s.AddArtwork(w))
    ensures Consistent(s.ToggleBookmark(w.id)) && Consistent(s.ToggleDarkMode()) && Consistent(s.ToggleCreateMenu())
  {
    var b := s.ToggleBookmark(w.id);
    assert forall i | 0 <= i < |b.artworks| ::
      b.artworks[i].stats == s.artworks[i].stats && b.artworks[i].isLiked == s.artworks[i].isLiked;
  }

  /** The create menu flips on each call, and two calls restore the store. */
  lemma CreateMenuTwice(s: Snapshot)
    ensures s.ToggleCreateMenu().isCreateMenuOpen != s.isCreateMenuOpen
    ensures s.ToggleCreateMenu().ToggleCreateMenu() == s
  {
  }

  /** Dark mode flips on each call, and two calls restore the store. */
  lemma DarkModeTwice(s: Snapshot)
    ensures s.ToggleDarkMode().isDarkMode != s.isDarkMode
    ensures s.ToggleDarkMode().ToggleDarkMode() == s
  {
  }

  // ---------------------------------------------------------------- bootstrap

  /** The bootstrap data is consistent: user1 follows artist1 and is followed by artist2,
      and the artist cards and store list agree. */
  lemma MockDataConsistent(s: Snapshot, catalog: seq<Artwork>)
    requires ArtworkCountersSane(catalog)
    ensures Consistent(s.LoadMockData(catalog))
    ensures s.LoadMockData(catalog).IsUserFollowing("artist1") && !s.LoadMockData(catalog).IsUserFollowing("artist2")
  {
    var r := s.LoadMockData(catalog);
    assert r.allUsers[1].id == "artist1" && r.allUsers[2].id == "artist2";
    assert "artist2" !in ["artist1"];
    assert "user1" !in [];
  }

  /** Loading initial data twice is the same as loading it once, and never replaces a signed-in user. */
  lemma LoadInitialDataOnce(s: Snapshot, catalog: seq<Artwork>)
    ensures s.LoadInitialData(catalog).LoadInitialData(catalog) == s.LoadInitialData(catalog)
    ensures s.currentUser.Some? ==> s.LoadInitialData(catalog) == s
    ensures s.LoadInitialData(catalog).currentUser.Some?
  {
  }
}
