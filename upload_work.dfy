/** The publish-a-work modal (`src/components/modals/UploadWorkModal.tsx`). Publishing is
    split at its `await`: the first step checks the form and raises the uploading flag; the
    second builds the work, hands it to the store's `addArtwork`, clears the form and lowers
    the flag. The new id and the creation time are parameters. */
module UploadWork {
  import opened Wrappers
  import opened Text
  import AppStore

  /** Until the user is known to the upload, every work is credited to the bootstrap user. */
  const UploaderId := "user1"

  /** The form values `handlePublish` captured when it started. */
  datatype Draft = Draft(image: string, title: string, description: string)

  /** `!selectedImage || !title.trim()` fails, i.e. the publish guard passes. */
  predicate CanPublish(image: Option<string>, title: string) {
    image.Some? && image.value != "" && !Blank(title)
  }

  /** The work handed to `addArtwork`: the typed title and description, the picked image, no
      likes or comments, neither liked nor bookmarked. */
  function NewArtwork(d: Draft, newId: string, createdAt: string): (w: AppStore.UserArtwork)
    ensures w.image == d.image && w.title == d.title && w.description == d.description
    ensures w.likes == 0 && w.comments == 0 && !w.isLiked && !w.isBookmarked
    ensures w.id == newId && w.artistId == UploaderId && w.createdAt == createdAt
  {
    AppStore.UserArtwork(newId, d.title, d.description, d.image, UploaderId, createdAt, 0, 0, false, false)
  }

  class UploadModal {
    var selectedImage: Option<string>
    var title: string
    var description: string
    var isUploading: bool
    /** Set once the modal has asked its parent to close. */
    var closed: bool

    constructor ()
      ensures selectedImage == None && title == "" && description == "" && !isUploading && !closed
    {
      selectedImage, title, description := None, "", "";
      isUploading, closed := false, false;
    }

    /** The publish button is enabled exactly when the guard passes and no upload runs. */
    predicate PublishEnabled()
      reads this
    {
      CanPublish(selectedImage, title) && !isUploading
    }

    /** `handlePublish` up to the `await`: refuses an incomplete form without touching
        anything, otherwise raises the flag and captures the form. */
    method BeginPublish() returns (draft: Option<Draft>)
      modifies this
      ensures draft.Some? <==> CanPublish(old(selectedImage), old(title))
      ensures draft.Some? ==> draft.value == Draft(old(selectedImage).value, old(title), old(description)) && isUploading
      ensures draft.None? ==> isUploading == old(isUploading)
      ensures selectedImage == old(selectedImage) && title == old(title) && description == old(description)
      ensures closed == old(closed)
    {
      if selectedImage.None? || selectedImage.value == "" || Trim(title) == [] {
        return None;
      }
      isUploading := true;
      draft := Some(Draft(selectedImage.value, title, description));
    }

    /** `handlePublish` after the `await`: one `addArtwork` call, then the form is cleared,
        the modal closes and the flag drops. */
    method FinishPublish(draft: Draft, newId: string, createdAt: string) returns (added: AppStore.UserArtwork)
      modifies this
      ensures added == NewArtwork(draft, newId, createdAt)
      ensures selectedImage == None && title == "" && description == "" && closed && !isUploading
    {
      added := NewArtwork(draft, newId, createdAt);
      selectedImage := None;
      title := "";
      description := "";
      closed := true;
      isUploading := false;
    }

    /** The whole `handlePublish`: at most one work is added, and the flag is down afterwards
        whenever a work was added. */
    method HandlePublish(newId: string, createdAt: string) returns (added: Option<AppStore.UserArtwork>)
      modifies this
      ensures added.Some? <==> CanPublish(old(selectedImage), old(title))
      ensures added.Some? ==>
        added.value == NewArtwork(Draft(old(selectedImage).value, old(title), old(description)), newId, createdAt) &&
        selectedImage == None && title == "" && description == "" && closed && !isUploading
      ensures added.None? ==>
        selectedImage == old(selectedImage) && title == old(title) && description == old(description) &&
        isUploading == old(isUploading) && closed == old(closed)
    {
      var draft := BeginPublish();
      if draft.None? {
        return None;
      }
      var w := FinishPublish(draft.value, newId, createdAt);
      added := Some(w);
    }

    /** `handleClose`: clears the three fields, then closes. */
    method HandleClose()
      modifies this
      ensures selectedImage == None && title == "" && description == "" && closed
      ensures isUploading == old(isUploading)
    {
      selectedImage := None;
      title := "";
      description := "";
      closed := true;
    }
  }
}
