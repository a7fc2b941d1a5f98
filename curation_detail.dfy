/** The data side of the curation detail screen (`src/screens/CurationDetailPage.tsx`):
    which curation and exhibition are shown, and how the exhibition's works are dealt
    into three chapters of which one is displayed. */
module CurationDetail {
  import opened Wrappers
  import opened Seqs
  import AppStore

  type Artwork = AppStore.Artwork
  type Artist = AppStore.Artist

  /** The fields of a curation this screen's logic reads. */
  datatype Curation = Curation(id: string, title: string)

  datatype Exhibition = Exhibition(id: string, title: string, curator: string,
                                   artist: Option<Artist>, artworks: seq<Artwork>)

  /** `curations.find(c => c.id === id) || curations[0]`; `None` when there are no
      curations, in which case the screen renders nothing. */
  function SelectCuration(curations: seq<Curation>, id: string): (r: Option<Curation>)
    ensures r.None? <==> curations == []
    ensures (exists i | 0 <= i < |curations| :: curations[i].id == id) ==>
      exists i | 0 <= i < |curations| :: curations[i] == r.value && curations[i].id == id &&
        forall j | 0 <= j < i :: curations[j].id != id
    ensures (forall i | 0 <= i < |curations| :: curations[i].id != id) && curations != [] ==> r == Some(curations[0])
  {
    match Find(curations, (c: Curation) => c.id == id)
    case Some(c) => Some(c)
    case None => if curations == [] then None else Some(curations[0])
  }

  lemma SelectCurationFallback(curations: seq<Curation>, id: string)
    ensures (forall i | 0 <= i < |curations| :: curations[i].id != id) && curations != [] ==>
      SelectCuration(curations, id) == Some(curations[0])
    ensures (exists i | 0 <= i < |curations| :: curations[i].id == id) ==>
      SelectCuration(curations, id).Some? && SelectCuration(curations, id).value.id == id
  {
  }

  function ByArtist(artworks: seq<Artwork>, artistId: string): seq<Artwork> {
    Filter(artworks, (a: Artwork) => a.artistId == artistId)
  }

  /** The two fixed exhibitions, each holding its artist's works in catalogue order. */
  function Exhibitions(artworks: seq<Artwork>, artists: seq<Artist>): seq<Exhibition> {
    [Exhibition("exhibition1", "杨西屏艺术回顾展", "杨西屏",
                Find(artists, (a: Artist) => a.id == "artist1"), ByArtist(artworks, "artist1")),
     Exhibition("exhibition2", "王正春当代艺术展", "王正春",
                Find(artists, (a: Artist) => a.id == "artist2"), ByArtist(artworks, "artist2"))]
  }

  /** `exhibitions.find(e => e.id === id) || exhibitions[0]`. */
  function SelectExhibition(curationId: string, artworks: seq<Artwork>, artists: seq<Artist>): Exhibition {
    var exhibitions := Exhibitions(artworks, artists);
    Find(exhibitions, (e: Exhibition) => e.id == curationId).GetOr(exhibitions[0])
  }

  /** The exhibition shown is the second one only for its own id; every other id, curation
      ids included, shows the first. Its works are exactly that artist's works, in order. */
  lemma {:induction false} SelectExhibitionWorks(curationId: string, artworks: seq<Artwork>, artists: seq<Artist>)
    ensures var e := SelectExhibition(curationId, artworks, artists);
      var who := if curationId == "exhibition2" then "artist2" else "artist1";
      e.artworks == ByArtist(artworks, who) &&
      (forall i | 0 <= i < |e.artworks| :: e.artworks[i].artistId == who && e.artworks[i] in artworks) &&
      (forall i | 0 <= i < |artworks| :: artworks[i].artistId == who ==> artworks[i] in e.artworks)
  {
    var exhibitions := Exhibitions(artworks, artists);
    var isIt := (e: Exhibition) => e.id == curationId;
    var found := Find(exhibitions, isIt);
    if curationId == "exhibition2" {
      assert isIt(exhibitions[1]) && !isIt(exhibitions[0]);
      assert found.Some? && found.value == exhibitions[1];
    } else if curationId == "exhibition1" {
      assert found.Some? && found.value == exhibitions[0];
    } else {
      assert found.None?;
    }
  }

  // ---------------------------------------------------------------- chapters

  const ChapterTitles := ["第一章 · 传承", "第二章 · 解构", "第三章 · 重构"]

  /** `Math.ceil(n / 3)`. */
  function ChapterSize(n: nat): (c: nat)
    ensures 3 * c >= n && (n >= 1 ==> c >= 1 && 3 * (c - 1) < n)
  {
    (n + 2) / 3
  }

  /** `Math.floor(index / Math.ceil(n / 3))` for the work at `index` of `n`. */
  function ChapterOf(index: nat, n: nat): nat
    requires index < n
  {
    index / ChapterSize(n)
  }

  /** Integer division places `i` in the block `[k*c, k*c + c)` exactly when the quotient is `k`. */
  lemma DivBlock(i: nat, c: nat, k: nat)
    requires c >= 1
    ensures i / c == k <==> k * c <= i < k * c + c
  {
    var q := i / c;
    assert i == q * c + i % c;
    if q < k {
      MulLe(q + 1, k, c);
    } else if k < q {
      MulLe(k + 1, q, c);
    }
  }

  lemma MulLe(a: nat, b: nat, c: nat)
    requires a <= b
    ensures a * c <= b * c
  {
  }

  /** Every work lands in one of the three chapters, so the title lookup is always in bounds. */
  lemma ChapterInRange(index: nat, n: nat)
    requires index < n
    ensures ChapterOf(index, n) < 3 && ChapterOf(index, n) < |ChapterTitles|
  {
    var c := ChapterSize(n);
    DivBlock(index, c, ChapterOf(index, n));
    if ChapterOf(index, n) >= 3 {
      MulLe(3, ChapterOf(index, n), c);
    }
  }

  /** Later works never go to an earlier chapter. */
  lemma ChapterMonotone(i: nat, j: nat, n: nat)
    requires i <= j < n
    ensures ChapterOf(i, n) <= ChapterOf(j, n)
  {
    var c := ChapterSize(n);
    DivBlock(i, c, ChapterOf(i, n));
    DivBlock(j, c, ChapterOf(j, n));
    if ChapterOf(j, n) < ChapterOf(i, n) {
      MulLe(ChapterOf(j, n) + 1, ChapterOf(i, n), c);
    }
  }

  datatype Placed = Placed(work: Artwork, chapter: nat)

  /** The exhibition's works, each tagged with its chapter. */
  function Chaptered(works: seq<Artwork>): (r: seq<Placed>)
    ensures |r| == |works|
    ensures forall i | 0 <= i < |r| :: r[i].work == works[i] && r[i].chapter < 3
  {
    AllChaptersInRange(|works|);
    seq(|works|, i requires 0 <= i < |works| => Placed(works[i], ChapterOf(i, |works|)))
  }

  lemma AllChaptersInRange(n: nat)
    ensures forall i: nat | i < n :: ChapterOf(i, n) < 3
  {
    forall i: nat | i < n
      ensures ChapterOf(i, n) < 3
    {
      ChapterInRange(i, n);
    }
  }

  /** The works shown while chapter `active` is selected. */
  function ChapterFilter(works: seq<Artwork>, active: int): seq<Placed> {
    Filter(Chaptered(works), (p: Placed) => p.chapter == active)
  }

  function Min(a: int, b: int): int {
    if a <= b then a else b
  }

  /** Chapter `k` shows the contiguous block of works from `k*c` up to `k*c + c` (cut off at
      the end of the list), so it holds at most `c = ceil(n/3)` works. */
  lemma ChapterIsBlock(works: seq<Artwork>, k: nat)
    ensures var n := |works|; var c := ChapterSize(n);
      var lo := Min(n, k * c); var hi := Min(n, k * c + c);
      0 <= lo <= hi <= n &&
      ChapterFilter(works, k) == Chaptered(works)[lo..hi] && |ChapterFilter(works, k)| <= c
  {
    var n := |works|;
    var c := ChapterSize(n);
    var lo := Min(n, k * c);
    var hi := Min(n, k * c + c);
    var s := Chaptered(works);
    var p := (q: Placed) => q.chapter == k;
    if n > 0 {
      forall i | 0 <= i < |s|
        ensures p(s[i]) <==> lo <= i < hi
      {
        DivBlock(i, c, k);
      }
      FilterBlock(s, p, lo, hi);
    }
  }

  /** The three chapter views partition the exhibition: concatenated they give back every
      work exactly once, in order. */
  lemma ChaptersPartition(works: seq<Artwork>)
    ensures ChapterFilter(works, 0) + ChapterFilter(works, 1) + ChapterFilter(works, 2) == Chaptered(works)
  {
    var n := |works|;
    var c := ChapterSize(n);
    var s := Chaptered(works);
    var a, b := Min(n, c), Min(n, 2 * c);
    ChapterSlice(works, 0, 0, a);
    ChapterSlice(works, 1, a, b);
    ChapterSlice(works, 2, b, n);
    SliceThree(s, a, b);
  }

  lemma ChapterSlice(works: seq<Artwork>, k: nat, lo: nat, hi: nat)
    requires lo == Min(|works|, k * ChapterSize(|works|)) && hi == Min(|works|, k * ChapterSize(|works|) + ChapterSize(|works|))
    ensures lo <= hi <= |works| && ChapterFilter(works, k) == Chaptered(works)[lo..hi]
  {
    ChapterIsBlock(works, k);
  }

  /** A chapter number outside 0..2 shows nothing. */
  lemma {:induction false} NoFourthChapter(works: seq<Artwork>, active: int)
    requires active < 0 || active >= 3
    ensures ChapterFilter(works, active) == []
  {
    FilterNone(Chaptered(works), (p: Placed) => p.chapter == active);
  }
}
