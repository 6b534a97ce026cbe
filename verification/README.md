# Business-card PDF generation and print pricing, in Dafny

This project models the two pieces of logic in the business-card web application:

- **The card generator** (`src/utils/pdfGenerator.js`). `generateAndDownloadPDF(formData, templateId)` turns
  the card's field values into a two-page PDF. It adds the front page and then the back page, both 85 mm by
  55 mm. The front gets the name and title runs and, when a logo is given, the logo in a 40 × 40 pt slot.
  The back gets the phone and e-mail runs. The result is saved and downloaded as
  `business-card-<timestamp>.pdf`, and the caller only sees a success flag. `processLogo` classifies the
  logo input. `drawImage` picks the PNG or JPEG embedding path from the data URL's prefix and turns every
  failure into `false`.
- **The print-options page** (`src/pages/EditPage/PrintOptionPage.jsx`). It has a fixed catalog of five
  templates and looks up the chosen template by id. A guard handles a missing template or missing card data.
  The design price is read from the template's price label (`"750 fcfa"`) by deleting the non-digits and
  parsing the rest. The total is that price plus 10 francs per printed card.

## Layout

| file | module | models |
|---|---|---|
| `wrappers.dfy` | `Wrappers` | `Option` (`null`, `undefined`, `NaN`) |
| `js_values.dfy` | `JsValues` | the JavaScript values the code inspects, and truthiness |
| `strings.dfy` | `Strings` | `startsWith`, `replace(/\D/g, '')`, `parseInt`, decimal spelling of a number |
| `pdf_document.dfy` | `Pdf` | the pdf-lib document: a class holding a sequence of pages, each page a sequence of drawn items |
| `logo.dfy` | `Logo` | `processLogo` and the PNG/JPEG choice |
| `collaborators.dfy` | `Collaborators` | the outcome of every foreign call (`Services`) |
| `card_layout.dfy` | `CardLayout` | `drawImage`, `drawCardFront`, `drawCardBack` and the fixed layout |
| `generator.dfy` | `Generator` | `generateAndDownloadPDF`, the page size, the file name |
| `print_options.dfy` | `PrintOptions` | catalog, lookup, guard, prices |

The pdf-lib document is the class `Pdf.Document`. Its field `pages` is reassigned by `AddPage`, `DrawText` and
`DrawImage`. `drawImage`, `drawCardFront` and `drawCardBack` are methods that modify it. Each of them is proved
against a specification function: `DrawnImage`, `FrontItems` and `BackItems`. `GenerateAndDownloadPdf` builds
a fresh document, so its contract does not mention the heap. That contract ties the downloaded bytes to
`CardPages`, and the layout lemmas are stated about `CardPages`.

Foreign calls become parameters. One `Collaborators.Services` value holds them for one request:

- the FileReader result;
- `fetch` plus `arrayBuffer`;
- whether `embedPng`/`embedJpg` accept the bytes;
- whether `page.drawImage` completes;
- which texts the standard font can encode;
- whether `PDFDocument.create` resolves;
- what `save` produces;
- whether the download completes.

`Date.now()` is the parameter `now`. Coordinates and the millimetre-to-point factor 2.83465 are exact reals.

Behaviour of the code worth noting:

- The codec is chosen only from the data URL's prefix. Nothing sniffs the image bytes. Any data URL that does
  not start with `data:image/png`, including GIF or upper-case `PNG`, takes the JPEG path. There, an embed
  that rejects the bytes makes `drawImage` return false.
- The generator returns a boolean, not a structured error or the bytes.
- Drawing text can fail. pdf-lib's `drawText` throws on a character the standard font cannot encode, and
  pdf-lib is not part of this model. The throw leaves `drawCardFront`/`drawCardBack`, and the generator
  catches it and returns false. This is the `encodes` predicate of `Services`.
- A file whose FileReader result is an empty string is treated like `null` (`if (!dataUrl)`).

## Model

| member | source | states |
|---|---|---|
| `Logo.ProcessLogo` | src/utils/pdfGenerator.js:5-25 | a data-URL string comes back unchanged; a File is read (a reader error rejects); every other value, falsy ones included, gives null; only a File read can reject |
| `Logo.ChooseCodec` | src/utils/pdfGenerator.js:39-41 | the PNG path is taken iff the data URL starts with `data:image/png`, the JPEG path otherwise |
| `Logo.NonPngUrlsTakeJpegPath` | src/utils/pdfGenerator.js:39-41 | for every payload, `data:image/jpeg;base64,`, `data:image/gif;base64,` and `data:image/PNG;base64,` URLs take the JPEG path and `data:image/png;base64,` URLs the PNG path |
| `CardLayout.DrawnImage` | src/utils/pdfGenerator.js:28-48 | an image is drawn exactly when the processed logo is a non-empty data URL, `fetch` returns its bytes, the embed for the URL's codec accepts them and drawing works; an image is drawn only from a data-URL string or a File, only when drawing works, with the codec its URL's prefix selects, from bytes that `fetch` returned and that codec's embed accepted |
| `CardLayout.DrawImage` | src/utils/pdfGenerator.js:28-48 | returns true exactly when `DrawnImage` yields a codec; then exactly one image item is appended to the page at (x, y, width, height); otherwise the document is unchanged |
| `CardLayout.DrawCardFront` | src/utils/pdfGenerator.js:63-81 | appends the name run (size 12, black, at 20,120), then the title run (size 10, grey 0.2, at 20,100), then the logo at (140, 90, 40, 40) only if a truthy logo was drawn; a logo failure never stops it; a text that cannot be encoded stops it, leaving the runs drawn before it |
| `CardLayout.DrawCardBack` | src/utils/pdfGenerator.js:84-98 | appends the phone run then the e-mail run, both size 10 and black, at (20,120) and (20,100), and no image |
| `Pdf.Document.constructor` | src/utils/pdfGenerator.js:107 | a new document has no pages |
| `Pdf.Document.AddPage` | src/utils/pdfGenerator.js:111 | appends one empty page of the given size after the existing ones and returns its position |
| `Pdf.Document.DrawText` | src/utils/pdfGenerator.js:64-69 | appends one text item to the chosen page when the font encodes the text, and changes nothing otherwise |
| `Pdf.Document.DrawImage` | src/utils/pdfGenerator.js:43 | appends one image item to the chosen page when drawing works, and changes nothing otherwise |
| `Generator.MmToPt` | src/utils/pdfGenerator.js:108-109 | dividing the point value by 2.83465 gives back the millimetres; a positive length grows |
| `Generator.GenerateAndDownloadPdf` | src/utils/pdfGenerator.js:101-130 | false with no download when `formData` or `templateId` is falsy; true iff creation, every text, save and download succeed, whatever the logo does and whatever the truthy template id is; when true, the download is the saved bytes of `CardPages` under `business-card-<now>.pdf` |
| `Generator.CardGeometry` | src/utils/pdfGenerator.js:107-115 | the document has exactly two pages, both 85·2.83465 by 55·2.83465 points, which is 85 mm by 55 mm |
| `Generator.FrontPageLayout` | src/utils/pdfGenerator.js:63-81 | the front page is the name run, the title run, then at most one image; the image is in the logo slot and is there iff the logo is truthy and was drawn |
| `Generator.BackPageLayout` | src/utils/pdfGenerator.js:84-98 | the back page is exactly the phone run and the e-mail run, with no image |
| `Generator.NoLogoNoImage` | src/utils/pdfGenerator.js:78-80 | with a falsy logo each page has exactly two items, all text |
| `Generator.FieldFallbacks` | src/utils/pdfGenerator.js:64-92 | an absent or empty field is drawn as `Nom`, `Titre`, `Téléphone` or `Email`; any other value is drawn as itself |
| `Generator.EmptyCardTexts` | src/utils/pdfGenerator.js:63-98 | a card with no fields carries exactly the four fallback literals, front then back |
| `Generator.FileNameInjective` | src/utils/pdfGenerator.js:118 | downloads made at different instants get different file names |
| `Strings.Decimal` | src/utils/pdfGenerator.js:118 | the timestamp in the file name is all digits, never empty, and has no leading zero |
| `Strings.DecimalRoundTrip` | src/utils/pdfGenerator.js:118 | reading the decimal spelling of a number gives the number back |
| `Strings.DecimalInjective` | src/utils/pdfGenerator.js:118 | two numbers with the same decimal spelling are equal |
| `Strings.KeepDigits` | src/pages/EditPage/PrintOptionPage.jsx:73 | the digit strip leaves only ASCII digits, never lengthens, keeps a string of digits as it is and empties a string without digits |
| `Strings.KeepDigitsAppend` | src/pages/EditPage/PrintOptionPage.jsx:73 | stripping distributes over concatenation, so the digits keep their order |
| `Strings.LeadingDigits` | src/pages/EditPage/PrintOptionPage.jsx:73 | the digits `parseInt` reads are a prefix of the input, made of digits, followed by a non-digit or the end |
| `Strings.ParseInt` | src/pages/EditPage/PrintOptionPage.jsx:73 | NaN exactly when the string does not start with a digit; on a non-empty digit string, the number it spells |
| `PrintOptions.FindIndex` | src/pages/EditPage/PrintOptionPage.jsx:63 | the position of the first template whose id is `===` the given value, or none when no template matches |
| `PrintOptions.FindTemplate` | src/pages/EditPage/PrintOptionPage.jsx:63 | a found template is in the catalog and has the requested id; nothing is found iff no catalog entry has it |
| `PrintOptions.CatalogIds` | src/pages/EditPage/PrintOptionPage.jsx:17-53 | the catalog has five entries with ids 1 to 5 in order, pairwise distinct |
| `PrintOptions.FindTemplateExact` | src/pages/EditPage/PrintOptionPage.jsx:63 | the lookup succeeds exactly for the numbers 1 to 5; it yields the entry with that id, which is the only one with it |
| `PrintOptions.FindCatalogId` | src/pages/EditPage/PrintOptionPage.jsx:63 | looking up id i+1 yields the catalog entry at position i |
| `PrintOptions.StringIdsMatchNothing` | src/pages/EditPage/PrintOptionPage.jsx:63 | a string id, such as `"1"`, matches no template, because `===` does not convert |
| `PrintOptions.DesignPrice` | src/pages/EditPage/PrintOptionPage.jsx:73 | NaN exactly when the label has no digit; otherwise the number spelled by the label's digits in order |
| `PrintOptions.PriceLabelRoundTrip` | src/pages/EditPage/PrintOptionPage.jsx:73 | a label written as `<n> fcfa` reads back as n |
| `PrintOptions.CatalogLabel` | src/pages/EditPage/PrintOptionPage.jsx:17-53 | each catalog label is its amount in decimal followed by ` fcfa` |
| `PrintOptions.CatalogDesignPrices` | src/pages/EditPage/PrintOptionPage.jsx:17-73 | the design prices of ids 1 to 5 are 500, 750, 500, 750 and 1000 |
| `PrintOptions.TotalPrice` | src/pages/EditPage/PrintOptionPage.jsx:74-75 | the total is NaN iff the design price is; otherwise it is at least the design price and exceeds it by exactly quantity × 10 |
| `PrintOptions.TotalPriceIncreasing` | src/pages/EditPage/PrintOptionPage.jsx:74-75 | the total is strictly increasing in the quantity, by 10 per card |
| `PrintOptions.PrintOptionsPage` | src/pages/EditPage/PrintOptionPage.jsx:60-75 | the missing-data view is shown iff the template is not found or the card data is falsy; otherwise the view carries the found template, its design price and the total for the quantity |
| `PrintOptions.CatalogSummaries` | src/pages/EditPage/PrintOptionPage.jsx:17-75 | for a catalog id and present card data, the view shows that entry, its catalog price and price + 10 × quantity |

## Left out

- `downloadPDF` (the Blob, the object URL and the link click) is a single success flag. The model says what is handed to it: the bytes and the file name. Partial effects of a download that throws halfway are not modelled.
- FileReader, `fetch` on data URLs, `embedPng`/`embedJpg`, `PDFDocument.create`, `save` and the PDF byte format are outcomes supplied by `Services`. Image decoding, the document's shared image table (an image embedded before a failed `page.drawImage` stays registered) and the serialisation itself are not modelled.
- The saved bytes depend on the logo only through its codec: an image item records the codec and the rectangle, not the image's bytes, so two logos of the same codec give the same `CardPages`.
- Floating point: page sizes and coordinates are exact reals, so the rounding of `85 * 2.83465` is not modelled. JavaScript numbers in `JsValue` are exact reals without infinities.
- `Strings.ParseInt`: it models `parseInt` on its leading digits only. Leading white space, a sign and precision loss beyond 2^53 are not modelled. Its argument here is always digits only.
- Text fields (`name`, `title`, `phone`, `email`) are absent or strings. A non-string value there is not modelled; pdf-lib would reject it when drawing.
- The asynchrony of `processLogo` and `drawImage` becomes sequential calls. Their awaited outcomes are the `Services` values.
- Console logging, the failure report in the `catch` block and the React rendering are not modelled. That covers the preview components, the format selector and the checkout navigation.
- `location.state` and the `useState` inputs become parameters. Quantity is a natural number; the input field's string-to-number coercion is not modelled.
- `src/pages/EditPage/TransactionPage.jsx` (mock SMS payment flow driven by timers and navigation) is UI flow with no contract and is not part of this model.
