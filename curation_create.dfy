/** The curation editor (`src/screens/CurationCreatePage.tsx`): toggling works in and out of
    the selection, and turning the form into the record handed to `createCuration`, or into
    the first validation error the form fails. */
module CurationCreate {
  import opened Wrappers
  import opened Text
  import opened Seqs
  import AppStore

  type Artwork = AppStore.Artwork

  /** No id occurs twice. */
  ghost predicate Distinct(s: seq<string>) {
    forall x :: multiset(s)[x] <= 1
  }

  /** `handleSelectArtwork`'s state update. */
  function ToggleSelection(selected: seq<string>, id: string): (r: seq<string>)
    ensures id in r <==> id !in selected
    ensures forall x | x != id :: x in r <==> x in selected
    ensures id !in selected ==> r == selected + [id]
    ensures multiset(r) <= multiset(selected) + multiset{id}
  {
    if id in selected then RemoveAll(selected, id) else selected + [id]
  }

  /** Toggling never creates a duplicate. */
  lemma ToggleKeepsDistinct(selected: seq<string>, id: string)
    requires Distinct(selected)
    ensures Distinct(ToggleSelection(selected, id))
  {
    var r := ToggleSelection(selected, id);
    if id in selected {
      assert forall x :: multiset(r)[x] <= multiset(selected)[x];
    } else {
      assert multiset(selected)[id] == 0;
    }
  }

  /** Selecting and then deselecting a work restores the selection exactly; deselecting and
      reselecting restores membership, with the work moved to the end. */
  lemma ToggleTwice(selected: seq<string>, id: string)
    ensures id !in selected ==> ToggleSelection(ToggleSelection(selected, id), id) == selected
    ensures forall x :: x in ToggleSelection(ToggleSelection(selected, id), id) <==> x in selected
  {
    if id !in selected {
      RemoveAppended(selected, id);
    }
  }

  class SelectionState {
    var selected: seq<string>

    constructor ()
      ensures selected == []
    {
      selected := [];
    }

    method HandleSelectArtwork(id: string)
      modifies this
      ensures selected == ToggleSelection(old(selected), id)
    {
      if id in selected {
        selected := RemoveAll(selected, id);
      } else {
        selected := selected + [id];
      }
    }
  }

  // ---------------------------------------------------------------- the record

  datatype CreateError = MissingTitle | MissingDescription | NoArtworks | NotSignedIn

  datatype Curator = Curator(id: string, name: string, avatar: string)

  datatype CurationDraft = CurationDraft(
    title: string, description: string, curator: Curator, artworks: seq<string>,
    coverImage: string, cover: seq<string>, createdAt: string)

  const DefaultCuratorAvatar := "./images/artists/yangxiping_avatar.jpg"
  const DefaultCoverImage := "./images/curations/default.jpg"

  /** The catalogue works that are selected, in catalogue order. */
  function SelectedObjects(artworks: seq<Artwork>, selected: seq<string>): seq<Artwork> {
    Filter(artworks, (a: Artwork) => a.id in selected)
  }

  function Images(works: seq<Artwork>): (r: seq<string>)
    ensures |r| == |works| && forall i | 0 <= i < |r| :: r[i] == works[i].image
  {
    seq(|works|, i requires 0 <= i < |works| => works[i].image)
  }

  function Take<T>(s: seq<T>, n: nat): seq<T> {
    if |s| <= n then s else s[..n]
  }

  /** `handleCreateCuration`: the first failing check, or the record passed to
      `createCuration`. `createdAt` is the clock reading. */
  function CreateCuration(title: string, description: string, selected: seq<string>,
                          currentUser: Option<AppStore.User>, artworks: seq<Artwork>,
                          createdAt: string): (r: Result<CurationDraft, CreateError>)
    ensures Blank(title) ==> r == Err(MissingTitle)
    ensures !Blank(title) && Blank(description) ==> r == Err(MissingDescription)
    ensures !Blank(title) && !Blank(description) && selected == [] ==> r == Err(NoArtworks)
    ensures !Blank(title) && !Blank(description) && selected != [] && currentUser.None? ==> r == Err(NotSignedIn)
    ensures r.Ok? <==> !Blank(title) && !Blank(description) && selected != [] && currentUser.Some?
  {
    if Trim(title) == [] then Err(MissingTitle)
    else if Trim(description) == [] then Err(MissingDescription)
    else if selected == [] then Err(NoArtworks)
    else if currentUser.None? then Err(NotSignedIn)
    else Ok(Draft(title, description, selected, currentUser.value, artworks, createdAt))
  }

  /** The record `handleCreateCuration` builds once every check has passed. */
  function Draft(title: string, description: string, selected: seq<string>,
                 user: AppStore.User, artworks: seq<Artwork>, createdAt: string): CurationDraft
  {
    var objects := SelectedObjects(artworks, selected);
    CurationDraft(
      title, description,
      Curator(user.id, user.name, if user.avatar.Some? && user.avatar.value != "" then user.avatar.value else DefaultCuratorAvatar),
      selected,
      if objects != [] && objects[0].image != "" then objects[0].image else DefaultCoverImage,
      Images(Take(objects, 4)),
      createdAt)
  }

  /** A created record keeps the typed title and description untrimmed, lists the selected
      ids in selection order, credits the signed-in user (with the default avatar when theirs
      is absent or empty), and takes its cover images from the selected works in catalogue
      order: at most four, the first of them being the cover image unless there is none or
      its image is empty, when the default cover is used. */
  lemma CreatedRecord(title: string, description: string, selected: seq<string>,
                      currentUser: Option<AppStore.User>, artworks: seq<Artwork>, createdAt: string)
    requires CreateCuration(title, description, selected, currentUser, artworks, createdAt).Ok?
    ensures var d := CreateCuration(title, description, selected, currentUser, artworks, createdAt).value;
      var objects := SelectedObjects(artworks, selected);
      d.title == title && d.description == description && d.artworks == selected &&
      d.curator.id == currentUser.value.id && d.curator.name == currentUser.value.name &&
      d.curator.avatar == (var u := currentUser.value;
        if u.avatar.Some? && u.avatar.value != "" then u.avatar.value else DefaultCuratorAvatar) &&
      |d.cover| <= 4 && |d.cover| == (if |objects| < 4 then |objects| else 4) &&
      (forall i | 0 <= i < |d.cover| :: d.cover[i] == objects[i].image && objects[i].id in selected) &&
      d.coverImage == (if objects != [] && objects[0].image != "" then objects[0].image else DefaultCoverImage) &&
      (d.cover != [] && d.cover[0] != "" ==> d.coverImage == d.cover[0])
  {
    DraftCover(title, description, selected, currentUser.value, artworks, createdAt);
  }

  lemma DraftCover(title: string, description: string, selected: seq<string>,
                   user: AppStore.User, artworks: seq<Artwork>, createdAt: string)
    ensures var d := Draft(title, description, selected, user, artworks, createdAt);
      var objects := SelectedObjects(artworks, selected);
      |d.cover| == (if |objects| < 4 then |objects| else 4) &&
      (forall i | 0 <= i < |d.cover| :: d.cover[i] == objects[i].image && objects[i].id in selected)
  {
    var objects := SelectedObjects(artworks, selected);
    var t := Take(objects, 4);
    assert forall i | 0 <= i < |t| :: t[i] == objects[i];
  }

  /** Every selected catalogue work, and nothing else, takes part in the cover choice. */
  lemma SelectedObjectsAreSelection(artworks: seq<Artwork>, selected: seq<string>)
    ensures var objects := SelectedObjects(artworks, selected);
      (forall i | 0 <= i < |objects| :: objects[i].id in selected && objects[i] in artworks) &&
      (forall i | 0 <= i < |artworks| :: artworks[i].id in selected ==> artworks[i] in objects)
  {
  }
}
