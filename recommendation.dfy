/** Feed ranking (`src/utils/recommendation.ts`): a weighted score per artwork,
    a descending sort by that score, and a keyword filter on titles. */
module Recommendation {
  import opened Wrappers
  import opened Text
  import opened Seqs

  datatype Stats = Stats(likes: real, comments: real)

  /** The fields of an artwork the ranking reads. `ageDays` is the current time minus
      the creation time, in days, as the caller's clock measures it. */
  datatype Candidate = Candidate(id: string, title: string, artistId: string, stats: Option<Stats>, ageDays: real)

  datatype Preferences = Preferences(likedArtists: seq<string>, viewedCategories: seq<string>,
                                     interactionScore: map<string, real>)

  const LikeWeight: real := 0.3
  const CommentWeight: real := 0.2
  const FreshnessWindowDays: real := 30.0
  const FreshnessWeight: real := 0.1
  const LikedArtistBonus: real := 50.0
  const InteractionWeight: real := 0.4

  function MaxReal(a: real, b: real): real {
    if a >= b then a else b
  }

  function Likes(a: Candidate): real {
    if a.stats.Some? then a.stats.value.likes else 0.0
  }

  function Comments(a: Candidate): real {
    if a.stats.Some? then a.stats.value.comments else 0.0
  }

  /** Decays linearly from 3 points for a brand-new work to 0 at thirty days. */
  function Freshness(ageDays: real): real {
    MaxReal(0.0, FreshnessWindowDays - ageDays) * FreshnessWeight
  }

  function Interaction(a: Candidate, prefs: Preferences): real {
    if a.id in prefs.interactionScore then prefs.interactionScore[a.id] else 0.0
  }

  function Score(a: Candidate, prefs: Preferences): real {
    Likes(a) * LikeWeight + Comments(a) * CommentWeight + Freshness(a.ageDays)
    + (if a.artistId in prefs.likedArtists then LikedArtistBonus else 0.0)
    + Interaction(a, prefs) * InteractionWeight
  }

  /** Past the freshness window, for an artist not liked and a work without interactions,
      only likes and comments count; a work without stats then scores nothing. */
  lemma ScoreBreakdown(a: Candidate, prefs: Preferences, likes: real, comments: real)
    requires a.id !in prefs.interactionScore && a.artistId !in prefs.likedArtists && a.ageDays >= 30.0
    ensures a.stats == Some(Stats(likes, comments)) ==> Score(a, prefs) == likes * 0.3 + comments * 0.2
    ensures a.stats == None ==> Score(a, prefs) == 0.0
  {
  }

  /** Liking the artist adds exactly fifty points and nothing else. */
  lemma LikedArtistBoost(a: Candidate, prefs: Preferences)
    requires a.artistId !in prefs.likedArtists
    ensures Score(a, prefs.(likedArtists := prefs.likedArtists + [a.artistId])) == Score(a, prefs) + 50.0
    ensures Score(a, prefs.(likedArtists := prefs.likedArtists + [a.artistId])) > Score(a, prefs)
  {
  }

  /** Within the thirty-day window a newer work outranks an otherwise identical older one;
      past the window age no longer matters. */
  lemma NewerScoresHigher(a: Candidate, prefs: Preferences, older: real)
    requires a.ageDays < older
    ensures a.ageDays < 30.0 ==> Score(a, prefs) > Score(a.(ageDays := older), prefs)
    ensures a.ageDays >= 30.0 ==> Score(a, prefs) == Score(a.(ageDays := older), prefs)
    ensures Score(a, prefs) >= Score(a.(ageDays := older), prefs)
  {
  }

  /** With no negative counters or interaction scores the score is never negative, whatever
      the work's age (the freshness term is clamped at zero). */
  lemma ScoreNonNegative(a: Candidate, prefs: Preferences)
    requires Likes(a) >= 0.0 && Comments(a) >= 0.0 && Interaction(a, prefs) >= 0.0
    ensures Score(a, prefs) >= 0.0
    ensures Score(a, prefs) >= Likes(a) * 0.3
  {
  }

  /** More likes, more comments or a higher interaction score never lower the score. */
  lemma ScoreMonotone(a: Candidate, prefs: Preferences, likes: real, comments: real,
                       moreLikes: real, moreComments: real, moreInteraction: real)
    requires a.stats == Some(Stats(likes, comments)) && likes <= moreLikes && comments <= moreComments
    requires Interaction(a, prefs) <= moreInteraction
    ensures Score(a, prefs) <= Score(a.(stats := Some(Stats(moreLikes, comments))), prefs)
    ensures Score(a, prefs) <= Score(a.(stats := Some(Stats(likes, moreComments))), prefs)
    ensures Score(a, prefs) <= Score(a, prefs.(interactionScore := prefs.interactionScore[a.id := moreInteraction]))
  {
  }

  // ---------------------------------------------------------------- sort

  /** The comparator `scoreB - scoreA` read as "a may come before b". */
  function HigherFirst(prefs: Preferences): (Candidate, Candidate) -> bool {
    (a: Candidate, b: Candidate) => Score(a, prefs) >= Score(b, prefs)
  }

  lemma HigherFirstTotal(prefs: Preferences)
    ensures TotalPreorder(HigherFirst(prefs))
  {
  }

  /** `sortArtworksByRecommendation`: a new list, the same works, highest score first. */
  function SortByRecommendation(arts: seq<Candidate>, prefs: Preferences): (r: seq<Candidate>)
    ensures multiset(r) == multiset(arts)
    ensures forall i, j | 0 <= i < j < |r| :: Score(r[i], prefs) >= Score(r[j], prefs)
  {
    HigherFirstTotal(prefs);
    Sort(arts, HigherFirst(prefs))
  }

  /** The first work of the ranking scores at least as high as every work of the input. */
  lemma SortedHeadIsBest(arts: seq<Candidate>, prefs: Preferences, k: int)
    requires 0 <= k < |arts|
    ensures var r := SortByRecommendation(arts, prefs);
      |r| == |arts| && Score(r[0], prefs) >= Score(arts[k], prefs)
  {
    var r := SortByRecommendation(arts, prefs);
    assert |r| == |multiset(r)| == |multiset(arts)| == |arts|;
    assert arts[k] in multiset(arts);
    var j :| 0 <= j < |r| && r[j] == arts[k];
  }

  // ---------------------------------------------------------------- category filter

  /** `categories.some(c => title.toLowerCase().includes(c.toLowerCase()))`. */
  predicate MatchesSome(title: string, categories: seq<string>) {
    exists i | 0 <= i < |categories| :: Contains(Lower(title), Lower(categories[i]))
  }

  function FilterByCategory(arts: seq<Candidate>, categories: seq<string>): (r: seq<Candidate>)
    ensures categories == [] ==> r == arts
    ensures forall i | 0 <= i < |r| :: r[i] in arts && (categories != [] ==> MatchesSome(r[i].title, categories))
    ensures forall i | 0 <= i < |arts| :: MatchesSome(arts[i].title, categories) ==> arts[i] in r
    ensures multiset(r) <= multiset(arts)
  {
    if |categories| == 0 then arts
    else
      var p := (a: Candidate) => MatchesSome(a.title, categories);
      FilterSubMultiset(arts, p);
      Filter(arts, p)
  }

  /** An empty keyword matches every title, so it keeps the whole feed. */
  lemma {:induction false} EmptyCategoryKeepsAll(arts: seq<Candidate>, categories: seq<string>)
    requires "" in categories
    ensures FilterByCategory(arts, categories) == arts
  {
    var k :| 0 <= k < |categories| && categories[k] == "";
    forall i | 0 <= i < |arts|
      ensures MatchesSome(arts[i].title, categories)
    {
      ContainsEmpty(Lower(arts[i].title));
      assert Lower(categories[k]) == "";
    }
    FilterAll(arts, (a: Candidate) => MatchesSome(a.title, categories));
  }

  /** The filter decides each work on its own and keeps the survivors in feed order:
      filtering a concatenation is concatenating the filtered parts. */
  lemma FilterByCategoryAppend(a: seq<Candidate>, b: seq<Candidate>, categories: seq<string>)
    ensures FilterByCategory(a + b, categories) == FilterByCategory(a, categories) + FilterByCategory(b, categories)
  {
    if categories != [] {
      FilterAppend(a, b, (x: Candidate) => MatchesSome(x.title, categories));
    }
  }

  /** A single work is kept exactly when there are no keywords or its title matches one;
      with `FilterByCategoryAppend` this fixes the result of every feed. */
  lemma FilterByCategorySingle(x: Candidate, categories: seq<string>)
    ensures FilterByCategory([x], categories) ==
      if categories == [] || MatchesSome(x.title, categories) then [x] else []
  {
    if categories != [] {
      FilterCons([x], (a: Candidate) => MatchesSome(a.title, categories));
    }
  }

  /** Filtering twice by the same keywords is filtering once. */
  lemma FilterByCategoryIdempotent(arts: seq<Candidate>, categories: seq<string>)
    ensures FilterByCategory(FilterByCategory(arts, categories), categories) == FilterByCategory(arts, categories)
  {
    if categories != [] {
      var r := FilterByCategory(arts, categories);
      FilterAll(r, (a: Candidate) => MatchesSome(a.title, categories));
    }
  }
}
