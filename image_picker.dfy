/** The decision taken in the image-library callback and the upload size limit
    (`src/utils/imagePicker.ts`). The library call and the alerts it raises are not
    modelled; the callback's response is the input. */
module ImagePicker {
  import opened Wrappers

  /** One picked asset as the library reports it; every field may be missing.
      `mimeType` is the field the library calls `type`. */
  datatype Asset = Asset(uri: Option<string>, fileName: Option<string>, mimeType: Option<string>, fileSize: Option<int>)

  datatype Response = Response(didCancel: bool, errorMessage: Option<string>, assets: Option<seq<Asset>>)

  datatype SelectedImage = SelectedImage(uri: string, fileName: string, mimeType: string, fileSize: int)

  /** JavaScript truthiness of an optional string and an optional number. */
  predicate TruthyString(s: Option<string>) {
    s.Some? && s.value != ""
  }

  predicate TruthyNumber(n: Option<int>) {
    n.Some? && n.value != 0
  }

  predicate Complete(a: Asset) {
    TruthyString(a.uri) && TruthyString(a.fileName) && TruthyString(a.mimeType) && TruthyNumber(a.fileSize)
  }

  /** What the picker promise resolves to for a given response. */
  function PickResult(r: Response): Option<SelectedImage> {
    if r.didCancel then None
    else if TruthyString(r.errorMessage) then None
    else if r.assets.Some? && |r.assets.value| > 0 then
      var a := r.assets.value[0];
      if Complete(a) then Some(SelectedImage(a.uri.value, a.fileName.value, a.mimeType.value, a.fileSize.value))
      else None
    else None
  }

  /** A cancelled response yields nothing, whatever else it carries. */
  lemma CancelWins(r: Response)
    requires r.didCancel
    ensures PickResult(r) == None
  {
  }

  /** The picker yields an image exactly when the response is neither cancelled nor an
      error, has a first asset, and that asset's four fields are all present and non-empty;
      the image then copies those four fields. */
  lemma PickResultSome(r: Response)
    ensures PickResult(r).Some? <==>
      !r.didCancel && !TruthyString(r.errorMessage) && r.assets.Some? && |r.assets.value| > 0 &&
      Complete(r.assets.value[0])
    ensures PickResult(r).Some? ==>
      var a := r.assets.value[0]; var img := PickResult(r).value;
      Some(img.uri) == a.uri && Some(img.fileName) == a.fileName &&
      Some(img.mimeType) == a.mimeType && Some(img.fileSize) == a.fileSize
  {
  }

  /** Only the first asset is ever looked at. */
  lemma OnlyFirstAsset(r: Response, a: Asset, rest: seq<Asset>)
    ensures PickResult(r.(assets := Some([a] + rest))) == PickResult(r.(assets := Some([a])))
  {
  }

  /** An asset reporting a size of 0 is treated as incomplete. */
  lemma ZeroSizeRejected(r: Response)
    requires r.assets.Some? && |r.assets.value| > 0 && r.assets.value[0].fileSize == Some(0)
    ensures PickResult(r) == None
  {
  }

  /** The response the library gives for a single successfully picked image. */
  function ResponseFor(img: SelectedImage): Response {
    Response(false, None, Some([Asset(Some(img.uri), Some(img.fileName), Some(img.mimeType), Some(img.fileSize))]))
  }

  /** A complete image reported by the library comes back unchanged. */
  lemma PickRoundTrip(img: SelectedImage)
    requires img.uri != "" && img.fileName != "" && img.mimeType != "" && img.fileSize != 0
    ensures PickResult(ResponseFor(img)) == Some(img)
  {
  }

  const MaxImageBytes := 10 * 1024 * 1024

  predicate ValidateImageSize(fileSize: int) {
    fileSize <= MaxImageBytes
  }

  /** The limit is 10 MiB inclusive. */
  lemma ImageSizeBoundary()
    ensures ValidateImageSize(10485760) && !ValidateImageSize(10485761)
    ensures forall n: int :: ValidateImageSize(n) ==> ValidateImageSize(n - 1)
  {
  }
}
