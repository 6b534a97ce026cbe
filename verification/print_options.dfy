/**
 * The print-options page's logic: the fixed template catalog, lookup of the chosen
 * template by id, the missing-data guard, and the price (design price read from
 * the catalog's price label plus a fixed amount per printed card).
 */
module PrintOptions {
  import opened Wrappers
  import opened JsValues
  import opened Strings

  /** A catalog entry; its front and back preview components are not modelled. */
  datatype Template = Template(id: int, title: string, price: string)

  const AllTemplates: seq<Template> := [
    Template(1, "Design minimaliste noir", "500 fcfa"),
    Template(2, "Design créatif pour artiste", "750 fcfa"),
    Template(3, "Design minimaliste bleu", "500 fcfa"),
    Template(4, "Design créatif pour artiste", "750 fcfa"),
    Template(5, "Design moderne", "1000 fcfa")
  ]

  /** Printing price of one card, in francs CFA. */
  const PrintPricePerCard: nat := 10

  /** `t.id === templateId`: the numeric id matches only a number of the same value. */
  predicate IdMatches(t: Template, templateId: JsValue)
  {
    templateId == Number(t.id as real)
  }

  /** `templates.find(t => t.id === templateId)`, as the position of the first match. */
  function FindIndex(templates: seq<Template>, templateId: JsValue): (r: Option<nat>)
    ensures r.Some? ==> r.value < |templates| && IdMatches(templates[r.value], templateId)
    ensures r.Some? ==> forall j :: 0 <= j < r.value ==> !IdMatches(templates[j], templateId)
    ensures r.None? <==> forall j :: 0 <= j < |templates| ==> !IdMatches(templates[j], templateId)
  {
    if templates == [] then None
    else if IdMatches(templates[0], templateId) then Some(0)
    else match FindIndex(templates[1..], templateId)
      case None => None
      case Some(k) => Some(k + 1)
  }

  /** The template the page shows for `templateId`, if the catalog has one. */
  function FindTemplate(templateId: JsValue): (r: Option<Template>)
    ensures r.Some? ==> r.value in AllTemplates && IdMatches(r.value, templateId)
    ensures r.None? <==> forall t :: t in AllTemplates ==> !IdMatches(t, templateId)
  {
    match FindIndex(AllTemplates, templateId)
    case None => None
    case Some(k) => Some(AllTemplates[k])
  }

  /** The catalog's ids are 1 to 5, in order, so no two entries share an id. */
  lemma CatalogIds()
    ensures |AllTemplates| == 5
    ensures forall i :: 0 <= i < |AllTemplates| ==> AllTemplates[i].id == i + 1
    ensures forall i, j :: 0 <= i < j < |AllTemplates| ==> AllTemplates[i].id != AllTemplates[j].id
  {
  }

  /**
   * The lookup succeeds exactly for the numbers 1 to 5, and gives the entry with
   * that id, which is the only one with it.
   */
  lemma FindTemplateExact(templateId: JsValue)
    ensures FindTemplate(templateId).Some? <==> templateId.Number? && templateId.n in {1.0, 2.0, 3.0, 4.0, 5.0}
    ensures forall i :: 0 <= i < |AllTemplates| && templateId == Number((i + 1) as real) ==>
              FindTemplate(templateId) == Some(AllTemplates[i])
    ensures forall t :: t in AllTemplates && IdMatches(t, templateId) ==> FindTemplate(templateId) == Some(t)
  {
  }

  /** Looking up catalog id `i + 1` gives the entry at position `i`. */
  lemma FindCatalogId(i: nat)
    requires i < |AllTemplates|
    ensures FindTemplate(Number((i + 1) as real)) == Some(AllTemplates[i])
  {
  }

  /** A string id, even one spelling a catalog id, matches nothing (`===` does not convert). */
  lemma StringIdsMatchNothing(s: string)
    ensures FindTemplate(Str(s)).None?
  {
  }

  /** `parseInt(price.replace(/\D/g, ''))`: `None` stands for `NaN` (a label with no digit). */
  function DesignPrice(price: string): (r: Option<nat>)
    ensures r.None? <==> KeepDigits(price) == ""
    ensures r.Some? ==> r.value == DigitsValue(KeepDigits(price))
  {
    ParseInt(KeepDigits(price))
  }

  /** A label written as a number followed by " fcfa" reads back as that number. */
  lemma PriceLabelRoundTrip(n: nat)
    ensures DesignPrice(Decimal(n) + " fcfa") == Some(n)
  {
    var digits := Decimal(n);
    KeepDigitsAppend(digits, " fcfa");
    assert NoDigits(" fcfa");
    assert KeepDigits(" fcfa") == "";
    assert KeepDigits(digits) == digits;
    assert digits + "" == digits;
    assert KeepDigits(digits + " fcfa") == digits;
    DecimalRoundTrip(n);
  }

  /** Each catalog label is its amount in decimal followed by " fcfa". */
  lemma CatalogLabel(i: nat)
    requires i < |AllTemplates|
    ensures AllTemplates[i].price == Decimal(CatalogPrice(i)) + " fcfa"
  {
  }

  /** The catalog's design prices, ids 1 to 5: 500, 750, 500, 750 and 1000. */
  lemma CatalogDesignPrices(i: nat)
    requires i < |AllTemplates|
    ensures DesignPrice(AllTemplates[i].price) == Some(CatalogPrice(i))
  {
    CatalogLabel(i);
    PriceLabelRoundTrip(CatalogPrice(i));
  }

  /** The design price each catalog entry is meant to carry, by position. */
  function CatalogPrice(i: nat): nat
    requires i < 5
  {
    [500, 750, 500, 750, 1000][i]
  }

  /** `designPrice + quantity * printPricePerCard`; `NaN` stays `NaN`. */
  function TotalPrice(designPrice: Option<nat>, quantity: nat): (r: Option<nat>)
    ensures r.Some? <==> designPrice.Some?
    ensures r.Some? ==> r.value >= designPrice.value
    ensures r.Some? ==> r.value - designPrice.value == quantity * PrintPricePerCard
  {
    match designPrice
    case None => None
    case Some(d) => Some(d + quantity * PrintPricePerCard)
  }

  /** One more card never costs less, and always costs exactly the per-card price more. */
  lemma TotalPriceIncreasing(designPrice: nat, q1: nat, q2: nat)
    requires q1 < q2
    ensures TotalPrice(Some(designPrice), q1).value < TotalPrice(Some(designPrice), q2).value
    ensures TotalPrice(Some(designPrice), q2).value - TotalPrice(Some(designPrice), q1).value
              == (q2 - q1) * PrintPricePerCard
  {
  }

  /** What the page shows: the missing-data message, or the price summary. */
  datatype PriceView = MissingData | Summary(template: Template, designPrice: Option<nat>, totalPrice: Option<nat>)

  /** The page for `templateId`, `cardData` and the chosen quantity. */
  function PrintOptionsPage(templateId: JsValue, cardData: JsValue, quantity: nat): (r: PriceView)
    ensures r.MissingData? <==> FindTemplate(templateId).None? || !Truthy(cardData)
    ensures r.Summary? ==>
              && r.template == FindTemplate(templateId).value
              && r.designPrice == DesignPrice(r.template.price)
              && r.totalPrice == TotalPrice(r.designPrice, quantity)
  {
    var template := FindTemplate(templateId);
    if template.None? || !Truthy(cardData) then MissingData
    else
      var designPrice := DesignPrice(template.value.price);
      Summary(template.value, designPrice, TotalPrice(designPrice, quantity))
  }

  /** For every catalog id and present card data, the summary shows that template's price and its total. */
  lemma CatalogSummaries(k: nat, cardData: JsValue, quantity: nat)
    requires 1 <= k <= 5 && Truthy(cardData)
    ensures var price := CatalogPrice(k - 1);
      PrintOptionsPage(Number(k as real), cardData, quantity)
        == Summary(AllTemplates[k - 1], Some(price), Some(price + quantity * 10))
  {
    var id, t, price := Number(k as real), AllTemplates[k - 1], CatalogPrice(k - 1);
    assert FindTemplate(id) == Some(t) by { FindCatalogId(k - 1); }
    assert DesignPrice(t.price) == Some(price) by { CatalogDesignPrices(k - 1); }
    assert PrintOptionsPage(id, cardData, quantity) == Summary(t, Some(price), TotalPrice(Some(price), quantity));
  }
}
