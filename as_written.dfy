/**
 * The bot exactly as written, for the two places where it does not do what
 * it evidently means to: line 36 reads `relative_url`, a name bound
 * nowhere (not assigned in fetch_deals, not a module global, not a
 * builtin), where line 35 binds `rel_url`; and the tick reads record keys that fetch_deals never writes. The rest of
 * the model (Deals, Tick) uses the corrected behaviour.
 */
module AsWritten {

  import opened Wrappers
  import opened PyBuiltins
  import opened Deals
  import opened Tick

  /** The names visible to line 36 that hold a string or None, with their values. */
  type Scope = map<string, Option<string>>

  /** The name line 35 binds to the href (or None). */
  const BoundName := "rel_url"
  /** The name line 36 reads. */
  const ReadName := "relative_url"

  /**
   * The names that matter for line 36 when it runs: `rel_url` is bound to
   * the href or None, and `relative_url` is bound nowhere. Other names in
   * scope, such as the parameter `url`, play no part and are not listed.
   */
  function ScopeAtLink(card: Card): (scope: Scope)
    ensures BoundName in scope && scope[BoundName] == Href(card.anchor)
    ensures ReadName !in scope
  {
    map[BoundName := Href(card.anchor)]
  }

  /**
   * Line 36 evaluated in a scope, reading the name `name`: a name bound
   * nowhere raises NameError; otherwise a non-empty href is prefixed with the origin.
   */
  function LinkIn(scope: Scope, name: string): (r: Outcome<string>)
    ensures r.Raised? <==> name !in scope
    ensures r.Raised? ==> r.error == NameError
    ensures r.Done? && r.value != NoLink ==> scope[name].Some? && r.value == Origin + scope[name].value
  {
    if name !in scope then Raised(NameError)
    else
      match scope[name]
      case Some(rel) => if rel != "" then Done(Origin + rel) else Done(NoLink)
      case None => Done(NoLink)
  }

  /** One iteration of the card loop as written: line 36 runs before the record is built. */
  function ExtractCardAsWritten(card: Card): (r: Outcome<DealRecord>)
    ensures r.Raised? ==> r.error == NameError
    ensures r.Done? ==> r.value.(link := ExtractCard(card).link) == ExtractCard(card)
  {
    match LinkIn(ScopeAtLink(card), ReadName)
    case Raised(e) => Raised(e)
    case Done(link) => Done(ExtractCard(card).(link := link))
  }

  /**
   * The card loop of fetch_deals with the per-card step as a parameter: the
   * first card whose step raises ends the loop with that exception.
   */
  function CardLoop(cards: seq<Card>, step: Card -> Outcome<DealRecord>): (r: Outcome<seq<DealRecord>>)
    ensures r.Done? ==> |r.value| == |cards| && forall i :: 0 <= i < |cards| ==> step(cards[i]) == Done(r.value[i])
    ensures r.Raised? ==> exists i :: 0 <= i < |cards| && step(cards[i]) == Raised(r.error)
  {
    if cards == [] then Done([])
    else
      match step(cards[0])
      case Raised(e) => Raised(e)
      case Done(d) =>
        match CardLoop(cards[1..], step)
        case Raised(e) =>
          assert exists i :: 0 <= i < |cards[1..]| && step(cards[1..][i]) == Raised(e);
          var i :| 0 <= i < |cards[1..]| && step(cards[1..][i]) == Raised(e);
          assert step(cards[i + 1]) == Raised(e);
          Raised(e)
        case Done(ds) =>
          assert forall i :: 0 < i < |cards| ==> cards[i] == cards[1..][i - 1];
          Done([d] + ds)
  }

  /** fetch_deals as written: an HTTP error raises, otherwise the card loop runs line 36 on each card. */
  function FetchDealsAsWritten(response: Response): (r: Outcome<seq<DealRecord>>)
    ensures response.HttpError? ==> r == Raised(HTTPError)
    ensures r.Done? ==> response.Page? && |r.value| == |response.cards|
  {
    match response
    case HttpError => Raised(HTTPError)
    case Page(cards) => CardLoop(cards, ExtractCardAsWritten)
  }

  /** Line 36 raises NameError on every card. */
  lemma NameErrorOnEveryCard(card: Card)
    ensures ExtractCardAsWritten(card) == Raised(NameError)
  {
    assert ReadName != BoundName;
  }

  /** As written, fetch_deals raises on every page that has at least one card, and only then. */
  lemma FetchDealsAsWrittenFails(cards: seq<Card>)
    ensures FetchDealsAsWritten(Page(cards)).Raised? <==> cards != []
    ensures cards != [] ==> FetchDealsAsWritten(Page(cards)) == Raised(NameError)
  {
    if cards != [] {
      NameErrorOnEveryCard(cards[0]);
    }
  }

  /** Reading the name line 35 binds gives exactly the corrected link. */
  lemma BoundNameGivesLink(card: Card)
    ensures LinkIn(ScopeAtLink(card), BoundName) == Done(LinkOf(card.anchor))
  {
  }

  /** A record as the dict fetch_deals builds; None is Python's None. */
  type Dict = map<string, Option<string>>

  /** The dict of lines 41-47, keyed Prodotto, Prezzo, Sconto, Durata, Link. */
  function RecordDict(r: DealRecord): Dict {
    map["Prodotto" := Some(r.product), "Prezzo" := Some(r.price), "Sconto" := Some(r.discount),
        "Durata" := r.duration, "Link" := Some(r.link)]
  }

  /** The same record under the keys the tick reads. */
  function TickKeyedDict(r: DealRecord): Dict {
    map["nome" := Some(r.product), "prezzo" := Some(r.price), "sconto" := Some(r.discount),
        "durata" := r.duration]
  }

  /** The f-string of lines 64-69 as written: deal['nome'], deal['prezzo'], deal['sconto'], deal['durata']. */
  function FormatAsWritten(deal: Dict): (r: Outcome<string>)
    ensures r.Raised? ==> r.error == KeyError
    ensures r.Done? <==> "nome" in deal && "prezzo" in deal && "sconto" in deal && "durata" in deal
  {
    if "nome" !in deal || "prezzo" !in deal || "sconto" !in deal || "durata" !in deal then Raised(KeyError)
    else
      Done("[ " + PyStr(deal["nome"]) + " ]\n"
        + "\U{20AC} " + PyStr(deal["prezzo"]) + "\n"
        + "Offerta del " + PyStr(deal["sconto"]) + "\n"
        + "Durata: " + PyStr(deal["durata"]))
  }

  /** No record fetch_deals builds can be formatted: deal['nome'] raises KeyError. */
  lemma KeyErrorOnEveryRecord(r: DealRecord)
    ensures FormatAsWritten(RecordDict(r)) == Raised(KeyError)
  {
    assert "nome" !in RecordDict(r);
  }

  /** Under the keys the tick reads, the f-string is exactly the corrected message. */
  lemma TickKeysGiveMessage(r: DealRecord)
    ensures FormatAsWritten(TickKeyedDict(r)) == Done(FormatDeal(r))
  {
  }

  /** The send loop as written: messages go out until the first one that raises. */
  function SendLoopAsWritten(chatId: int, deals: seq<Dict>): (r: (seq<Message>, Option<Exception>))
    ensures |r.0| <= |deals|
    ensures forall i :: 0 <= i < |r.0| ==> r.0[i].chatId == chatId
    ensures r.1.None? ==> |r.0| == |deals|
  {
    if deals == [] then ([], None)
    else
      match FormatAsWritten(deals[0])
      case Raised(e) => ([], Some(e))
      case Done(text) =>
        var (rest, raised) := SendLoopAsWritten(chatId, deals[1..]);
        ([Message(chatId, text)] + rest, raised)
  }

  function Dicts(ds: seq<DealRecord>): (dicts: seq<Dict>)
    ensures |dicts| == |ds|
    ensures forall i :: 0 <= i < |ds| ==> dicts[i] == RecordDict(ds[i])
  {
    if ds == [] then [] else [RecordDict(ds[0])] + Dicts(ds[1..])
  }

  /**
   * Even with line 36 repaired, the key mismatch alone means that a
   * non-empty deal list sends no deal at all: the first deal raises.
   */
  lemma KeyMismatchSendsNothing(chatId: int, ds: seq<DealRecord>)
    requires ds != []
    ensures SendLoopAsWritten(chatId, Dicts(ds)) == ([], Some(KeyError))
  {
    KeyErrorOnEveryRecord(ds[0]);
  }

  /** The page loop of the tick as written. */
  function CollectAsWritten(fetch: string -> Response, urls: seq<string>): (r: Outcome<seq<Dict>>)
    ensures r.Raised? ==> r.error == HTTPError || r.error == NameError
    ensures urls == [] ==> r == Done([])
  {
    if urls == [] then Done([])
    else
      match FetchDealsAsWritten(fetch(urls[0]))
      case Raised(e) => Raised(e)
      case Done(ds) =>
        match CollectAsWritten(fetch, urls[1..])
        case Raised(e) => Raised(e)
        case Done(rest) => Done(Dicts(ds) + rest)
  }

  /** send_deals as written, over the fixed page list. */
  function SendDealsAsWritten(chatId: int, fetch: string -> Response): (msgs: seq<Message>)
    ensures |msgs| > 0
    ensures forall i :: 0 <= i < |msgs| ==> msgs[i].chatId == chatId
  {
    match CollectAsWritten(fetch, DealsPages)
    case Raised(_) => [Message(chatId, ErrorText)]
    case Done(deals) =>
      if deals == [] then [Message(chatId, NoDealsText)]
      else
        var (sent, raised) := SendLoopAsWritten(chatId, deals);
        if raised.Some? then sent + [Message(chatId, ErrorText)] else sent
  }

  /** As written, the page loop never yields a record: it fails unless every page is fetched and empty. */
  lemma {:induction false} CollectAsWrittenNoDeals(fetch: string -> Response, urls: seq<string>)
    ensures CollectAsWritten(fetch, urls).Done? ==> CollectAsWritten(fetch, urls).value == []
    ensures CollectAsWritten(fetch, urls).Done? <==>
      forall i :: 0 <= i < |urls| ==> fetch(urls[i]) == Page([])
  {
    if urls != [] {
      CollectAsWrittenNoDeals(fetch, urls[1..]);
      FetchDealsAsWrittenFails(if fetch(urls[0]).Page? then fetch(urls[0]).cards else []);
      assert forall i :: 0 < i < |urls| ==> urls[1..][i - 1] == urls[i];
    }
  }

  /**
   * As written, every tick sends exactly one message, and it is never a
   * deal: the "no deals" notice when every page is fetched and empty, the
   * error notice otherwise.
   */
  lemma AsWrittenTickNeverSendsDeals(chatId: int, fetch: string -> Response)
    ensures (forall i :: 0 <= i < |DealsPages| ==> fetch(DealsPages[i]) == Page([])) ==>
      SendDealsAsWritten(chatId, fetch) == [Message(chatId, NoDealsText)]
    ensures !(forall i :: 0 <= i < |DealsPages| ==> fetch(DealsPages[i]) == Page([])) ==>
      SendDealsAsWritten(chatId, fetch) == [Message(chatId, ErrorText)]
  {
    CollectAsWrittenNoDeals(fetch, DealsPages);
  }

  /**
   * One card on every page: as written the tick sends only the error
   * notice; corrected, the page loop yields that card's record once per
   * page, four records to send.
   */
  lemma OneCardPerPage(chatId: int, card: Card)
    ensures SendDealsAsWritten(chatId, (u: string) => Page([card])) == [Message(chatId, ErrorText)]
    ensures Collect((u: string) => Page([card]), DealsPages) == Done(seq(4, _ => ExtractCard(card)))
  {
    var fetch := (u: string) => Page([card]);
    AsWrittenTickNeverSendsDeals(chatId, fetch);
    assert fetch(DealsPages[0]) != Page([]);
    var r := ExtractCard(card);
    assert PageDeals([card]) == [r];
    assert DealsPages[3..][1..] == [];
    assert Collect(fetch, DealsPages[3..]) == Done([r]);
    assert DealsPages[2..][1..] == DealsPages[3..];
    assert Collect(fetch, DealsPages[2..]) == Then(Done([r]), Collect(fetch, DealsPages[3..]));
    assert [r] + [r] == [r, r];
    assert DealsPages[1..][1..] == DealsPages[2..];
    assert Collect(fetch, DealsPages[1..]) == Then(Done([r]), Collect(fetch, DealsPages[2..]));
    assert [r] + [r, r] == [r, r, r];
    assert Collect(fetch, DealsPages) == Then(Done([r]), Collect(fetch, DealsPages[1..]));
    assert [r] + [r, r, r] == [r, r, r, r] == seq(4, _ => r);
  }
}
