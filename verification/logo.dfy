/**
 * Logo input classification (`processLogo`) and the choice of the embedding path
 * (PNG or JPEG) from the data URL's prefix (`drawImage`).
 */
module Logo {
  import opened Wrappers
  import opened JsValues
  import opened Strings
  import opened Pdf

  /** What `processLogo` settles to: `null`, a data URL, or a rejected promise (FileReader error). */
  datatype Processed = NoData | DataUrl(url: string) | ReadRejected

  /** A string that is already an inline data URL. */
  predicate IsDataUrlString(v: JsValue)
  {
    v.Str? && StartsWith(v.s, "data:")
  }

  /**
   * `processLogo(logoData)`. `readAsDataUrl` stands for `FileReader.readAsDataURL`:
   * `Some(result)` when `onload` fires, `None` when `onerror` does.
   */
  function ProcessLogo(logoData: JsValue, readAsDataUrl: UploadedFile -> Option<string>): (r: Processed)
    // a falsy value, and any value that is neither a data-URL string nor a File, gives null
    ensures r == NoData <==> !IsDataUrlString(logoData) && !logoData.File?
    // a data-URL string is passed through unchanged
    ensures IsDataUrlString(logoData) ==> r == DataUrl(logoData.s)
    // a File is read; a reader error rejects
    ensures logoData.File? ==> (r.ReadRejected? <==> readAsDataUrl(logoData.file).None?)
    ensures logoData.File? && r.DataUrl? ==> Some(r.url) == readAsDataUrl(logoData.file)
    // only a File read can reject
    ensures r.ReadRejected? ==> logoData.File?
  {
    if !Truthy(logoData) then NoData
    else if IsDataUrlString(logoData) then DataUrl(logoData.s)
    else if logoData.File? then
      match readAsDataUrl(logoData.file)
      case Some(result) => DataUrl(result)
      case None => ReadRejected
    else NoData
  }

  /** The embedding path `drawImage` takes for a data URL. */
  function ChooseCodec(dataUrl: string): (c: Codec)
    ensures c == Png <==> StartsWith(dataUrl, "data:image/png")
    ensures c == Jpeg <==> !StartsWith(dataUrl, "data:image/png")
  {
    if StartsWith(dataUrl, "data:image/png") then Png else Jpeg
  }

  /** The prefix test is case-sensitive and looks no further: other image types take the JPEG path. */
  lemma NonPngUrlsTakeJpegPath(payload: string)
    ensures ChooseCodec("data:image/jpeg;base64," + payload) == Jpeg
    ensures ChooseCodec("data:image/gif;base64," + payload) == Jpeg
    ensures ChooseCodec("data:image/PNG;base64," + payload) == Jpeg
    ensures ChooseCodec("data:image/png;base64," + payload) == Png
  {
    var jpeg, gif, upper := "data:image/jpeg;base64," + payload, "data:image/gif;base64," + payload,
                            "data:image/PNG;base64," + payload;
    var png := "data:image/png;base64," + payload;
    assert jpeg[..14][11] != "data:image/png"[11];
    assert gif[..14][11] != "data:image/png"[11];
    assert upper[..14][11] != "data:image/png"[11];
    assert png[..14] == "data:image/png";
  }
}
