/**
 * The foreign calls of the card generator, each reduced to whether it succeeds
 * and, where it produces something, what. A `Services` value fixes the behaviour
 * of the browser and of pdf-lib for one generation request.
 */
module Collaborators {
  import opened Wrappers
  import opened JsValues
  import opened Pdf

  type Bytes = seq<bv8>

  datatype Services = Services(
    /** `FileReader.readAsDataURL`: the data URL on `onload`, `None` on `onerror`. */
    readAsDataUrl: UploadedFile -> Option<string>,
    /** `fetch(url)` then `res.arrayBuffer()`: the bytes, or `None` when either throws. */
    fetchBytes: string -> Option<Bytes>,
    /** Whether `embedPng` / `embedJpg` accepts the bytes. */
    embeds: (Codec, Bytes) -> bool,
    /** Whether `page.drawImage` completes. */
    drawsImages: bool,
    /** Whether the standard font can encode a text (`drawText` throws otherwise). */
    encodes: string -> bool,
    /** Whether `PDFDocument.create()` resolves. */
    createSucceeds: bool,
    /** `pdfDoc.save()`: the serialised document, or `None` when it throws. */
    save: seq<Page> -> Option<Bytes>,
    /** Whether `downloadPDF` (Blob, object URL, link click) completes. */
    downloadSucceeds: bool)
}
