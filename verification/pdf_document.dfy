/**
 * The part of a pdf-lib `PDFDocument` the card generator uses: pages of a given
 * size, each with the sequence of things drawn on it, in drawing order.
 * Coordinates are points with the origin at the lower-left corner of the page.
 */
module Pdf {

  /** The two raster codecs pdf-lib can embed (`embedPng`, `embedJpg`). */
  datatype Codec = Png | Jpeg

  /** `rgb(r, g, b)` with components in [0, 1]. */
  datatype Color = Rgb(r: real, g: real, b: real)

  datatype Item =
    | Text(content: string, x: real, y: real, size: real, color: Color)
    | Image(codec: Codec, x: real, y: real, width: real, height: real)

  datatype Page = Page(width: real, height: real, items: seq<Item>)
  {
    function Draw(item: Item): (p: Page)
      ensures |p.items| == |items| + 1 && p.items[..|items|] == items && p.items[|items|] == item
    {
      Page(width, height, items + [item])
    }

    /** The page after drawing `more`, in order. */
    function DrawAll(more: seq<Item>): (p: Page)
      ensures |p.items| == |items| + |more| && p.items[..|items|] == items && p.items[|items|..] == more
    {
      Page(width, height, items + more)
    }
  }

  class Document {
    /** The pages in the order `addPage` created them. */
    var pages: seq<Page>
    /** Whether the standard font can encode a text; `drawText` throws when it cannot. */
    const encodes: string -> bool
    /** Whether `page.drawImage` completes; when it throws, nothing is drawn. */
    const drawsImages: bool

    /** `PDFDocument.create()`: an empty document. */
    constructor (encodes: string -> bool, drawsImages: bool)
      ensures pages == []
      ensures this.encodes == encodes && this.drawsImages == drawsImages
    {
      pages := [];
      this.encodes := encodes;
      this.drawsImages := drawsImages;
    }

    /** `pdfDoc.addPage([width, height])`: appends an empty page and returns its position. */
    method AddPage(width: real, height: real) returns (index: nat)
      modifies this
      ensures index == |old(pages)|
      ensures pages == old(pages) + [Page(width, height, [])]
    {
      index := |pages|;
      pages := pages + [Page(width, height, [])];
    }

    /** `page.drawText(content, { x, y, size, color })`; `ok` is false when it throws. */
    method DrawText(index: nat, content: string, x: real, y: real, size: real, color: Color)
      returns (ok: bool)
      requires index < |pages|
      modifies this
      ensures ok == encodes(content)
      ensures pages == if ok then old(pages)[index := old(pages)[index].Draw(Text(content, x, y, size, color))]
                       else old(pages)
    {
      ok := encodes(content);
      if ok {
        pages := pages[index := pages[index].Draw(Text(content, x, y, size, color))];
      }
    }

    /** `page.drawImage(image, { x, y, width, height })` for an embedded image of the given codec. */
    method DrawImage(index: nat, codec: Codec, x: real, y: real, width: real, height: real)
      returns (ok: bool)
      requires index < |pages|
      modifies this
      ensures ok == drawsImages
      ensures pages == if ok then old(pages)[index := old(pages)[index].Draw(Image(codec, x, y, width, height))]
                       else old(pages)
    {
      ok := drawsImages;
      if ok {
        pages := pages[index := pages[index].Draw(Image(codec, x, y, width, height))];
      }
    }
  }
}
