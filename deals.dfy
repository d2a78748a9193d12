/**
 * fetch_deals: one deals page, already fetched and parsed, turned into one
 * record per deal card. Every field falls back to a fixed sentinel when its
 * element is missing.
 */
module Deals {

  import opened Wrappers
  import opened PyBuiltins

  /** A tag found by a CSS selector: its text nodes, in document order, and its attributes. */
  datatype Element = Element(strings: seq<string>, attrs: map<string, string>)

  /** One `.DealGridItem-module__dealItem` card, given by what each `select_one` inside it found. */
  datatype Card = Card(
    name: Option<Element>,           // .DealContent-module__truncate
    price: Option<Element>,          // .a-price-whole
    discountPrice: Option<Element>,  // .a-color-price
    discountBase: Option<Element>,   // .a-size-mini.a-color-base
    timer: Option<Element>,          // .a-declarative
    anchor: Option<Element>)         // a.a-link-normal

  /**
   * What requests.get followed by raise_for_status and the parse of the body
   * give: the page's deal cards in document order, or an HTTP error.
   */
  datatype Response = Page(cards: seq<Card>) | HttpError

  /**
   * The record built for one card (keys Prodotto, Prezzo, Sconto, Durata,
   * Link). The duration is None when the timer element has no
   * data-deal-duration attribute, as Tag.get returns then.
   */
  datatype DealRecord = DealRecord(
    product: string,
    price: string,
    discount: string,
    duration: Option<string>,
    link: string)

  const Origin := "https://www.amazon.it"
  const NotAvailable := "N/D"
  const NoDiscount := "0%"
  const UnknownDuration := "sconosciuta"
  const NoLink := "Link non disponibile"
  const HrefAttr := "href"
  const DurationAttr := "data-deal-duration"

  /** The stripped text of a found element, or the sentinel when the lookup found nothing. */
  function TextOr(e: Option<Element>, sentinel: string): string {
    match e
    case None => sentinel
    case Some(el) => GetText(el.strings)
  }

  /** `a or b` over two lookups: a found tag is always truthy, so a found first element wins. */
  function FirstFound(a: Option<Element>, b: Option<Element>): Option<Element> {
    if a.Some? then a else b
  }

  /** The anchor's href when the anchor exists and carries one. */
  function Href(anchor: Option<Element>): Option<string> {
    if anchor.Some? && HrefAttr in anchor.value.attrs then Some(anchor.value.attrs[HrefAttr]) else None
  }

  /**
   * The absolute link: the site origin followed by the relative href. An
   * absent anchor, an absent href and an empty href (falsy in Python) all
   * give the sentinel, and only they do.
   */
  function LinkOf(anchor: Option<Element>): (link: string)
    ensures link == NoLink <==> Href(anchor).None? || Href(anchor).value == ""
    ensures link != NoLink ==>
      && |Origin| < |link|
      && link[..|Origin|] == Origin
      && link[|Origin|..] == Href(anchor).value
  {
    var rel := Href(anchor);
    if rel.Some? && rel.value != "" then
      var link := Origin + rel.value;
      assert link[0] != NoLink[0];
      link
    else NoLink
  }

  /** The timer's data-deal-duration attribute (possibly absent), or the sentinel when there is no timer. */
  function DurationOf(timer: Option<Element>): Option<string> {
    match timer
    case None => Some(UnknownDuration)
    case Some(el) => if DurationAttr in el.attrs then Some(el.attrs[DurationAttr]) else None
  }

  /** The record for one card, field by field. */
  function ExtractCard(card: Card): (r: DealRecord)
    ensures card.name.None? ==> r.product == NotAvailable
    ensures card.name.Some? ==> r.product == GetText(card.name.value.strings)
    ensures card.price.None? ==> r.price == NotAvailable
    ensures card.price.Some? ==> r.price == GetText(card.price.value.strings)
    ensures card.discountPrice.Some? ==> r.discount == GetText(card.discountPrice.value.strings)
    ensures card.discountPrice.None? && card.discountBase.Some? ==>
      r.discount == GetText(card.discountBase.value.strings)
    ensures card.discountPrice.None? && card.discountBase.None? ==> r.discount == NoDiscount
    ensures card.timer.None? ==> r.duration == Some(UnknownDuration)
    ensures card.timer.Some? ==>
      (r.duration.Some? <==> DurationAttr in card.timer.value.attrs) &&
      (r.duration.Some? ==> r.duration.value == card.timer.value.attrs[DurationAttr])
    ensures r.link == LinkOf(card.anchor)
  {
    DealRecord(
      TextOr(card.name, NotAvailable),
      TextOr(card.price, NotAvailable),
      TextOr(FirstFound(card.discountPrice, card.discountBase), NoDiscount),
      DurationOf(card.timer),
      LinkOf(card.anchor))
  }

  /** A card on which no lookup found anything gives a record of sentinels, not no record. */
  lemma EmptyCardSentinels()
    ensures ExtractCard(Card(None, None, None, None, None, None))
      == DealRecord(NotAvailable, NotAvailable, NoDiscount, Some(UnknownDuration), NoLink)
  {
  }

  /**
   * Fields are not always non-empty: a name element without text gives an
   * empty name, and a timer without data-deal-duration gives no duration.
   */
  lemma FieldsMayBeEmpty()
    ensures ExtractCard(Card(Some(Element([" "], map[])), None, None, None, None, None)).product == ""
    ensures ExtractCard(Card(None, None, None, None, Some(Element([], map[])), None)).duration == None
  {
    assert GetText([" "]) == Strip(" ") + GetText([]);
  }

  /** A relative href such as "/deal/123" resolves against the site origin. */
  lemma RelativeHrefResolves(path: string)
    requires path != ""
    ensures LinkOf(Some(Element([], map[HrefAttr := path]))) == Origin + path
  {
  }

  /** The records of one page's cards, in card order. */
  function PageDeals(cards: seq<Card>): (ds: seq<DealRecord>)
    ensures |ds| == |cards|
    ensures forall i :: 0 <= i < |cards| ==> ds[i] == ExtractCard(cards[i])
  {
    if cards == [] then [] else [ExtractCard(cards[0])] + PageDeals(cards[1..])
  }

  /** A card appended to the page gives its record appended to the records. */
  lemma PageDealsSnoc(cards: seq<Card>, card: Card)
    ensures PageDeals(cards + [card]) == PageDeals(cards) + [ExtractCard(card)]
  {
  }

  /**
   * The loop of fetch_deals: for a fetched page, one record per card, in
   * card order, nothing dropped or merged; an HTTP error is raised.
   */
  method FetchDeals(response: Response) returns (r: Outcome<seq<DealRecord>>)
    ensures response.HttpError? ==> r == Raised(HTTPError)
    ensures response.Page? ==>
      && r.Done?
      && |r.value| == |response.cards|
      && forall i :: 0 <= i < |response.cards| ==> r.value[i] == ExtractCard(response.cards[i])
    ensures response.Page? ==> r == Done(PageDeals(response.cards))
  {
    if response.HttpError? {
      return Raised(HTTPError);
    }
    var cards := response.cards;
    var items: seq<DealRecord> := [];
    var i := 0;
    while i < |cards|
      invariant 0 <= i <= |cards|
      invariant items == PageDeals(cards[..i])
    {
      PageDealsSnoc(cards[..i], cards[i]);
      assert cards[..i] + [cards[i]] == cards[..i + 1];
      items := items + [ExtractCard(cards[i])];
      i := i + 1;
    }
    assert cards[..i] == cards;
    r := Done(items);
  }
}
