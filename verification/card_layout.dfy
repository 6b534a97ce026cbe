/**
 * The fixed business-card layout: `drawImage`, `drawCardFront` and `drawCardBack`.
 * Every text run, size, colour and the logo rectangle is a constant of the layout;
 * a missing or empty field is replaced by its fallback literal.
 */
module CardLayout {
  import opened Wrappers
  import opened JsValues
  import opened Pdf
  import opened Logo
  import opened Collaborators

  /** The card's field values (`formData`). An absent text field is `None`. */
  datatype CardFields = CardFields(
    name: Option<string>,
    title: Option<string>,
    phone: Option<string>,
    email: Option<string>,
    logo: JsValue)

  /** `value || fallback` for a text field: absent and empty both fall back. */
  function OrElse(value: Option<string>, fallback: string): string
  {
    if value.Some? && value.value != "" then value.value else fallback
  }

  const Black := Rgb(0.0, 0.0, 0.0)
  const DarkGray := Rgb(0.2, 0.2, 0.2)

  function NameText(f: CardFields): string { OrElse(f.name, "Nom") }
  function TitleText(f: CardFields): string { OrElse(f.title, "Titre") }
  function PhoneText(f: CardFields): string { OrElse(f.phone, "Téléphone") }
  function EmailText(f: CardFields): string { OrElse(f.email, "Email") }

  function NameRun(f: CardFields): Item { Text(NameText(f), 20.0, 120.0, 12.0, Black) }
  function TitleRun(f: CardFields): Item { Text(TitleText(f), 20.0, 100.0, 10.0, DarkGray) }
  function PhoneRun(f: CardFields): Item { Text(PhoneText(f), 20.0, 120.0, 10.0, Black) }
  function EmailRun(f: CardFields): Item { Text(EmailText(f), 20.0, 100.0, 10.0, Black) }

  /** The logo slot on the front page. */
  const LogoX := 140.0
  const LogoY := 90.0
  const LogoSize := 40.0

  /**
   * The codec of the image `drawImage(pdfDoc, page, imageData, ...)` draws, or
   * `None` when it returns false: no usable data URL, `fetch` failed, the embed
   * rejected the bytes, or `page.drawImage` threw.
   */
  function DrawnImage(imageData: JsValue, env: Services, drawsImages: bool): (r: Option<Codec>)
    // an image is drawn exactly when every step succeeds
    ensures var p := ProcessLogo(imageData, env.readAsDataUrl);
      r.Some? <==> p.DataUrl? && p.url != "" && env.fetchBytes(p.url).Some?
                   && env.embeds(ChooseCodec(p.url), env.fetchBytes(p.url).value) && drawsImages
    // an image is drawn only from a data-URL string or a File, and only when drawing works
    ensures r.Some? ==> Truthy(imageData) && (IsDataUrlString(imageData) || imageData.File?) && drawsImages
    // a data-URL string is drawn with the codec its own prefix selects
    ensures r.Some? && IsDataUrlString(imageData) ==> r.value == ChooseCodec(imageData.s)
    // a File is drawn with the codec the prefix of its read result selects
    ensures r.Some? && imageData.File? ==>
              env.readAsDataUrl(imageData.file).Some? && r.value == ChooseCodec(env.readAsDataUrl(imageData.file).value)
    // the bytes fetched from the data URL were accepted by that codec's embed
    ensures r.Some? ==> var url := ProcessLogo(imageData, env.readAsDataUrl).url;
              env.fetchBytes(url).Some? && env.embeds(r.value, env.fetchBytes(url).value)
  {
    var processed := ProcessLogo(imageData, env.readAsDataUrl);
    if !processed.DataUrl? || processed.url == "" || env.fetchBytes(processed.url).None? then None
    else
      var codec := ChooseCodec(processed.url);
      if env.embeds(codec, env.fetchBytes(processed.url).value) && drawsImages then Some(codec) else None
  }

  /** What `drawCardFront` puts on the front page when it completes. */
  function FrontItems(f: CardFields, logo: Option<Codec>): seq<Item>
  {
    [NameRun(f), TitleRun(f)] + (if logo.Some? then [Image(logo.value, LogoX, LogoY, LogoSize, LogoSize)] else [])
  }

  /** The logo outcome on the front page: attempted only for a truthy `formData.logo`. */
  function FrontLogo(f: CardFields, env: Services, drawsImages: bool): Option<Codec>
  {
    if Truthy(f.logo) then DrawnImage(f.logo, env, drawsImages) else None
  }

  /** What `drawCardBack` puts on the back page when it completes. */
  function BackItems(f: CardFields): seq<Item>
  {
    [PhoneRun(f), EmailRun(f)]
  }

  /** `drawImage`: every failure is caught and reported as `false`, with nothing drawn. */
  method DrawImage(doc: Document, index: nat, imageData: JsValue, env: Services,
                   x: real, y: real, width: real, height: real) returns (drawn: bool)
    requires index < |doc.pages|
    modifies doc
    ensures drawn == DrawnImage(imageData, env, doc.drawsImages).Some?
    ensures doc.pages ==
              if drawn
              then old(doc.pages)[index := old(doc.pages)[index].Draw(
                     Image(DrawnImage(imageData, env, doc.drawsImages).value, x, y, width, height))]
              else old(doc.pages)
  {
    var processed := ProcessLogo(imageData, env.readAsDataUrl);
    if !processed.DataUrl? || processed.url == "" {
      return false;
    }
    var bytes := env.fetchBytes(processed.url);
    if bytes.None? {
      return false;
    }
    var codec := ChooseCodec(processed.url);
    if !env.embeds(codec, bytes.value) {
      return false;
    }
    drawn := doc.DrawImage(index, codec, x, y, width, height);
  }

  /**
   * `drawCardFront`. `completed` is false when a `drawText` threw (the throw
   * leaves the card generation); what was drawn before the throw stays drawn.
   * `templateId` is accepted and ignored.
   */
  method DrawCardFront(doc: Document, index: nat, f: CardFields, templateId: JsValue, env: Services)
    returns (completed: bool)
    requires index < |doc.pages|
    modifies doc
    ensures completed == (doc.encodes(NameText(f)) && doc.encodes(TitleText(f)))
    ensures !doc.encodes(NameText(f)) ==> doc.pages == old(doc.pages)
    ensures doc.encodes(NameText(f)) && !doc.encodes(TitleText(f)) ==>
              doc.pages == old(doc.pages)[index := old(doc.pages)[index].Draw(NameRun(f))]
    ensures completed ==>
              doc.pages == old(doc.pages)[index := old(doc.pages)[index].DrawAll(
                             FrontItems(f, FrontLogo(f, env, doc.drawsImages)))]
  {
    var page0 := doc.pages[index];
    completed := doc.DrawText(index, NameText(f), 20.0, 120.0, 12.0, Black);
    if !completed {
      return;
    }
    completed := doc.DrawText(index, TitleText(f), 20.0, 100.0, 10.0, DarkGray);
    if !completed {
      return;
    }
    var page2 := doc.pages[index];
    assert page2 == page0.DrawAll([NameRun(f), TitleRun(f)]);
    assert doc.pages == old(doc.pages)[index := page2];
    if Truthy(f.logo) {
      var drawn := DrawImage(doc, index, f.logo, env, LogoX, LogoY, LogoSize, LogoSize);
      if drawn {
        assert doc.pages[index] == page0.DrawAll(FrontItems(f, FrontLogo(f, env, doc.drawsImages)));
      } else {
        assert FrontItems(f, FrontLogo(f, env, doc.drawsImages)) == [NameRun(f), TitleRun(f)];
      }
    } else {
      assert FrontItems(f, FrontLogo(f, env, doc.drawsImages)) == [NameRun(f), TitleRun(f)];
    }
  }

  /** `drawCardBack`: the phone and e-mail runs, never an image. `templateId` is accepted and ignored. */
  method DrawCardBack(doc: Document, index: nat, f: CardFields, templateId: JsValue)
    returns (completed: bool)
    requires index < |doc.pages|
    modifies doc
    ensures completed == (doc.encodes(PhoneText(f)) && doc.encodes(EmailText(f)))
    ensures !doc.encodes(PhoneText(f)) ==> doc.pages == old(doc.pages)
    ensures doc.encodes(PhoneText(f)) && !doc.encodes(EmailText(f)) ==>
              doc.pages == old(doc.pages)[index := old(doc.pages)[index].Draw(PhoneRun(f))]
    ensures completed ==>
              doc.pages == old(doc.pages)[index := old(doc.pages)[index].DrawAll(BackItems(f))]
  {
    completed := doc.DrawText(index, PhoneText(f), 20.0, 120.0, 10.0, Black);
    if !completed {
      return;
    }
    completed := doc.DrawText(index, EmailText(f), 20.0, 100.0, 10.0, Black);
    if completed {
      assert doc.pages[index].items == old(doc.pages)[index].items + BackItems(f);
    }
  }
}
