/**
 * `generateAndDownloadPDF`: checks its inputs, builds the two-page card document
 * (front, then back, both 85 mm by 55 mm), serialises it and hands the bytes to
 * the download. The result is a single success flag.
 */
module Generator {
  import opened Wrappers
  import opened JsValues
  import opened Strings
  import opened Pdf
  import opened Collaborators
  import opened CardLayout

  /** Points per millimetre, as the source writes it (exact here, no rounding). */
  const PointsPerMm: real := 2.83465

  function MmToPt(mm: real): (pt: real)
    ensures pt / PointsPerMm == mm
    ensures mm > 0.0 ==> pt > mm
  {
    mm * PointsPerMm
  }

  const CardWidth: real := MmToPt(85.0)
  const CardHeight: real := MmToPt(55.0)

  /** What reaches `downloadPDF`: the saved bytes and the file name. */
  datatype Download = Download(bytes: Bytes, filename: string)

  /** `business-card-${Date.now()}.pdf`, `now` being the clock reading in milliseconds. */
  function FileName(now: nat): string
  {
    "business-card-" + Decimal(now) + ".pdf"
  }

  /** Two downloads made at different instants have different names. */
  lemma FileNameInjective(a: nat, b: nat)
    requires FileName(a) == FileName(b)
    ensures a == b
  {
    var na, nb := FileName(a), FileName(b);
    assert na[14..|na| - 4] == Decimal(a);
    assert nb[14..|nb| - 4] == Decimal(b);
    DecimalInjective(a, b);
  }

  /** Every text the card draws can be encoded, so no `drawText` throws. */
  predicate TextsEncodable(f: CardFields, encodes: string -> bool)
  {
    encodes(NameText(f)) && encodes(TitleText(f)) && encodes(PhoneText(f)) && encodes(EmailText(f))
  }

  /** The pages of a completed card document, in the order they were added. */
  function CardPages(f: CardFields, env: Services): seq<Page>
  {
    [Page(CardWidth, CardHeight, FrontItems(f, FrontLogo(f, env, env.drawsImages))),
     Page(CardWidth, CardHeight, BackItems(f))]
  }

  /**
   * `generateAndDownloadPDF(formData, templateId)`. `formData` is `None` when it
   * is falsy; `now` stands for `Date.now()`. `download` is what was handed to
   * `downloadPDF`, present exactly when the call returns true.
   */
  method GenerateAndDownloadPdf(formData: Option<CardFields>, templateId: JsValue, env: Services, now: nat)
    returns (ok: bool, download: Option<Download>)
    ensures download.Some? <==> ok
    // missing input: false before any document exists
    ensures formData.None? || !Truthy(templateId) ==> !ok
    // the logo plays no part in success, and the template id only through its truthiness
    ensures ok <==> formData.Some? && Truthy(templateId) && env.createSucceeds
                    && TextsEncodable(formData.value, env.encodes)
                    && env.save(CardPages(formData.value, env)).Some? && env.downloadSucceeds
    // what is downloaded is the saved two-page card, under a timestamped name
    ensures ok ==> download.value == Download(env.save(CardPages(formData.value, env)).value, FileName(now))
  {
    if formData.None? || !Truthy(templateId) {
      return false, None;
    }
    if !env.createSucceeds {
      return false, None;
    }
    var f := formData.value;
    var doc := new Document(env.encodes, env.drawsImages);
    var front := doc.AddPage(CardWidth, CardHeight);
    var frontDone := DrawCardFront(doc, front, f, templateId, env);
    if !frontDone {
      return false, None;
    }
    ghost var frontItems := FrontItems(f, FrontLogo(f, env, env.drawsImages));
    ghost var frontPage := Page(CardWidth, CardHeight, frontItems);
    assert doc.drawsImages == env.drawsImages;
    assert [] + frontItems == frontItems;
    assert doc.pages == [frontPage];
    var back := doc.AddPage(CardWidth, CardHeight);
    var backDone := DrawCardBack(doc, back, f, templateId);
    if !backDone {
      return false, None;
    }
    assert [] + BackItems(f) == BackItems(f);
    assert doc.pages == [frontPage, Page(CardWidth, CardHeight, BackItems(f))];
    var bytes := env.save(doc.pages);
    if bytes.None? || !env.downloadSucceeds {
      return false, None;
    }
    ok, download := true, Some(Download(bytes.value, FileName(now)));
  }

  /** Both pages have the card's size, 85 mm by 55 mm, and converting back gives millimetres. */
  lemma CardGeometry(f: CardFields, env: Services)
    ensures |CardPages(f, env)| == 2
    ensures forall i :: 0 <= i < 2 ==>
              CardPages(f, env)[i].width == 85.0 * 2.83465 && CardPages(f, env)[i].height == 55.0 * 2.83465
    ensures forall i :: 0 <= i < 2 ==>
              CardPages(f, env)[i].width / PointsPerMm == 85.0 && CardPages(f, env)[i].height / PointsPerMm == 55.0
  {
  }

  /**
   * The front page holds the name run then the title run, followed by at most one
   * image, in the logo slot; the image is there exactly when a truthy logo was
   * drawn. A failed logo leaves the two runs alone.
   */
  lemma FrontPageLayout(f: CardFields, env: Services)
    ensures var items := CardPages(f, env)[0].items;
      && 2 <= |items| <= 3
      && items[0] == Text(NameText(f), 20.0, 120.0, 12.0, Rgb(0.0, 0.0, 0.0))
      && items[1] == Text(TitleText(f), 20.0, 100.0, 10.0, Rgb(0.2, 0.2, 0.2))
      && (|items| == 3 <==> Truthy(f.logo) && DrawnImage(f.logo, env, env.drawsImages).Some?)
      && (|items| == 3 ==> items[2] == Image(DrawnImage(f.logo, env, env.drawsImages).value, 140.0, 90.0, 40.0, 40.0))
  {
  }

  /** The back page holds the phone run then the e-mail run, and never an image. */
  lemma BackPageLayout(f: CardFields, env: Services)
    ensures var items := CardPages(f, env)[1].items;
      && items == [Text(PhoneText(f), 20.0, 120.0, 10.0, Rgb(0.0, 0.0, 0.0)),
                   Text(EmailText(f), 20.0, 100.0, 10.0, Rgb(0.0, 0.0, 0.0))]
      && forall i :: 0 <= i < |items| ==> !items[i].Image?
  {
  }

  /** Without a logo the card has exactly two text runs per page and no image. */
  lemma NoLogoNoImage(f: CardFields, env: Services)
    requires !Truthy(f.logo)
    ensures forall p :: 0 <= p < 2 ==> |CardPages(f, env)[p].items| == 2
    ensures forall p, i :: 0 <= p < 2 && 0 <= i < |CardPages(f, env)[p].items| ==>
              CardPages(f, env)[p].items[i].Text?
  {
  }

  /** A field that is absent or empty is drawn as its fallback literal; any other value as itself. */
  lemma FieldFallbacks(f: CardFields)
    ensures NameText(f) == (if f.name.None? || f.name.value == "" then "Nom" else f.name.value)
    ensures TitleText(f) == (if f.title.None? || f.title.value == "" then "Titre" else f.title.value)
    ensures PhoneText(f) == (if f.phone.None? || f.phone.value == "" then "Téléphone" else f.phone.value)
    ensures EmailText(f) == (if f.email.None? || f.email.value == "" then "Email" else f.email.value)
  {
  }

  /** An empty card carries the four fallback literals, in page order. */
  lemma EmptyCardTexts(env: Services)
    ensures var pages := CardPages(CardFields(None, None, None, None, Undefined), env);
      && pages[0].items == [Text("Nom", 20.0, 120.0, 12.0, Rgb(0.0, 0.0, 0.0)),
                            Text("Titre", 20.0, 100.0, 10.0, Rgb(0.2, 0.2, 0.2))]
      && pages[1].items == [Text("Téléphone", 20.0, 120.0, 10.0, Rgb(0.0, 0.0, 0.0)),
                            Text("Email", 20.0, 100.0, 10.0, Rgb(0.0, 0.0, 0.0))]
  {
  }
}
