/** The artist directory's search-then-sort (`src/screens/ArtistHubPage.tsx`): keep the
    artists whose name or bio contains the query, ignoring case, then order them by the
    chosen key. The query and the key are inputs. */
module ArtistHub {
  import opened Wrappers
  import opened Text
  import opened Seqs
  import AppStore

  /** An artist as the directory reads it: bio and stats may be missing. */
  datatype Listing = Listing(id: string, name: string, bio: Option<string>, stats: Option<AppStore.ArtistStats>)

  predicate MatchesQuery(a: Listing, query: string) {
    Contains(Lower(a.name), Lower(query)) ||
    (a.bio.Some? && a.bio.value != "" && Contains(Lower(a.bio.value), Lower(query)))
  }

  /** `stats?.followers || 0` and `stats?.artworks || 0`. */
  function Followers(a: Listing): int {
    if a.stats.Some? then a.stats.value.followers else 0
  }

  function Artworks(a: Listing): int {
    if a.stats.Some? then a.stats.value.artworks else 0
  }

  /** The three orders, as "a may come before b". */
  function Order(sortBy: string): (Listing, Listing) -> bool {
    if sortBy == "followers" then (a: Listing, b: Listing) => Followers(a) >= Followers(b)
    else if sortBy == "artworks" then (a: Listing, b: Listing) => Artworks(a) >= Artworks(b)
    else (a: Listing, b: Listing) => LexLe(a.name, b.name)
  }

  lemma {:induction false} OrderIsTotalPreorder(sortBy: string)
    ensures TotalPreorder(Order(sortBy))
  {
    if sortBy != "followers" && sortBy != "artworks" {
      var before := Order(sortBy);
      forall a: Listing, b: Listing
        ensures before(a, b) || before(b, a)
      {
        LexLeTotal(a.name, b.name);
      }
      forall a: Listing, b: Listing, c: Listing | before(a, b) && before(b, c)
        ensures before(a, c)
      {
        LexLeTransitive(a.name, b.name, c.name);
      }
    }
  }

  function Search(artists: seq<Listing>, query: string): seq<Listing> {
    Filter(artists, (a: Listing) => MatchesQuery(a, query))
  }

  /** `filteredArtists`: a permutation of the matching artists, in the chosen order. */
  function FilteredArtists(artists: seq<Listing>, query: string, sortBy: string): (r: seq<Listing>)
    ensures multiset(r) == multiset(Search(artists, query))
    ensures forall i | 0 <= i < |r| :: r[i] in artists && MatchesQuery(r[i], query)
    ensures forall i | 0 <= i < |artists| :: MatchesQuery(artists[i], query) ==> artists[i] in r
    ensures sortBy == "followers" ==> forall i, j | 0 <= i < j < |r| :: Followers(r[i]) >= Followers(r[j])
    ensures sortBy == "artworks" ==> forall i, j | 0 <= i < j < |r| :: Artworks(r[i]) >= Artworks(r[j])
    ensures sortBy != "followers" && sortBy != "artworks" ==>
      forall i, j | 0 <= i < j < |r| :: LexLe(r[i].name, r[j].name)
  {
    OrderIsTotalPreorder(sortBy);
    var found := Search(artists, query);
    var r := Sort(found, Order(sortBy));
    SameMembers(found, r);
    SortedKeys(r, sortBy);
    r
  }

  lemma SortedKeys(r: seq<Listing>, sortBy: string)
    requires SortedBy(r, Order(sortBy))
    ensures sortBy == "followers" ==> forall i, j | 0 <= i < j < |r| :: Followers(r[i]) >= Followers(r[j])
    ensures sortBy == "artworks" ==> forall i, j | 0 <= i < j < |r| :: Artworks(r[i]) >= Artworks(r[j])
    ensures sortBy != "followers" && sortBy != "artworks" ==>
      forall i, j | 0 <= i < j < |r| :: LexLe(r[i].name, r[j].name)
  {
  }

  /** An empty query matches every name, so it keeps every artist. */
  lemma {:induction false} EmptyQueryKeepsAll(artists: seq<Listing>, sortBy: string)
    ensures multiset(FilteredArtists(artists, "", sortBy)) == multiset(artists)
  {
    forall i | 0 <= i < |artists|
      ensures MatchesQuery(artists[i], "")
    {
      ContainsEmpty(Lower(artists[i].name));
    }
    FilterAll(artists, (a: Listing) => MatchesQuery(a, ""));
  }

  /** Nothing is added or duplicated: the result is never longer than the directory. */
  lemma ResultNoLarger(artists: seq<Listing>, query: string, sortBy: string)
    ensures |FilteredArtists(artists, query, sortBy)| <= |artists|
  {
    var r := FilteredArtists(artists, query, sortBy);
    assert |r| == |multiset(r)| == |multiset(Search(artists, query))| == |Search(artists, query)|;
  }
}
