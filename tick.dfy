/**
 * send_deals: one firing of the polling job. Every deals page is fetched in
 * order and the records are concatenated; the chat then gets one "no deals"
 * message, or one message per deal. Any exception on the way collapses the
 * tick into one generic error message.
 */
module Tick {

  import opened Wrappers
  import opened PyBuiltins
  import opened Deals

  /** The pages visited by every tick, in this order. */
  const DealsPages: seq<string> := [
    "https://www.amazon.it/gp/goldbox",
    "https://www.amazon.it/gp/bestsellers",
    "https://www.amazon.it/deals?ref_=nav_cs_gb",
    "https://www.amazon.it/ref=nav_logo"
  ]

  const NoDealsText := "Nessuna offerta trovata in questo momento."
  const ErrorText := "Errore durante il controllo delle offerte."

  /** One send_message call: the destination chat and the text. */
  datatype Message = Message(chatId: int, text: string)

  /** Sequencing of two steps that may raise: the first exception wins. */
  function Then(a: Outcome<seq<DealRecord>>, b: Outcome<seq<DealRecord>>): Outcome<seq<DealRecord>> {
    match a
    case Raised(e) => Raised(e)
    case Done(xs) =>
      match b
      case Raised(e) => Raised(e)
      case Done(ys) => Done(xs + ys)
  }

  /**
   * `all_deals` after the page loop: the pages' records concatenated in
   * page order, or the first page's fetch error.
   */
  function Collect(fetch: string -> Response, urls: seq<string>): (r: Outcome<seq<DealRecord>>)
    ensures r.Raised? ==> r.error == HTTPError
  {
    if urls == [] then Done([]) else Then(PageOutcome(fetch(urls[0])), Collect(fetch, urls[1..]))
  }

  /** What one page contributes: its records, or the fetch error. */
  function PageOutcome(response: Response): Outcome<seq<DealRecord>> {
    match response
    case HttpError => Raised(HTTPError)
    case Page(cards) => Done(PageDeals(cards))
  }

  /** Sequencing is associative: grouping the steps differently changes nothing. */
  lemma ThenAssoc(a: Outcome<seq<DealRecord>>, b: Outcome<seq<DealRecord>>, c: Outcome<seq<DealRecord>>)
    ensures Then(Then(a, b), c) == Then(a, Then(b, c))
  {
    if a.Done? && b.Done? && c.Done? {
      assert (a.value + b.value) + c.value == a.value + (b.value + c.value);
    }
  }

  /** The deals are collected exactly when every page was fetched: one failed page fails them all. */
  lemma {:induction false} CollectSucceedsIff(fetch: string -> Response, urls: seq<string>)
    ensures Collect(fetch, urls).Done? <==> forall i :: 0 <= i < |urls| ==> fetch(urls[i]).Page?
  {
    if urls != [] {
      CollectSucceedsIff(fetch, urls[1..]);
      assert forall i :: 0 < i < |urls| ==> urls[1..][i - 1] == urls[i];
    }
  }

  /** Collecting two lists of pages one after the other is collecting their concatenation. */
  lemma {:induction false} CollectConcat(fetch: string -> Response, us: seq<string>, vs: seq<string>)
    ensures Collect(fetch, us + vs) == Then(Collect(fetch, us), Collect(fetch, vs))
  {
    if us == [] {
      assert us + vs == vs;
      match Collect(fetch, vs)
      case Raised(e) =>
      case Done(ys) => assert [] + ys == ys;
    } else {
      var first := PageOutcome(fetch(us[0]));
      assert (us + vs)[0] == us[0];
      assert (us + vs)[1..] == us[1..] + vs;
      assert Collect(fetch, us + vs) == Then(first, Collect(fetch, us[1..] + vs));
      assert Collect(fetch, us) == Then(first, Collect(fetch, us[1..]));
      CollectConcat(fetch, us[1..], vs);
      ThenAssoc(first, Collect(fetch, us[1..]), Collect(fetch, vs));
    }
  }

  /** One more page fetched: its records are appended after those already collected. */
  lemma CollectStep(fetch: string -> Response, urls: seq<string>, i: nat, acc: seq<DealRecord>)
    requires i < |urls| && fetch(urls[i]).Page?
    requires Collect(fetch, urls[..i]) == Done(acc)
    ensures Collect(fetch, urls[..i + 1]) == Done(acc + PageDeals(fetch(urls[i]).cards))
  {
    var cards := fetch(urls[i]).cards;
    assert [urls[i]][1..] == [];
    assert Collect(fetch, [urls[i]]) == Done(PageDeals(cards) + []);
    assert PageDeals(cards) + [] == PageDeals(cards);
    CollectConcat(fetch, urls[..i], [urls[i]]);
    assert urls[..i] + [urls[i]] == urls[..i + 1];
  }

  /**
   * An optional string as an f-string renders it: None, which comes from a
   * timer without `data-deal-duration`, prints as "None".
   */
  function PyStr(d: Option<string>): string {
    match d
    case None => "None"
    case Some(s) => s
  }

  /** The four-line text sent for one deal; the link is not part of it. */
  function FormatDeal(d: DealRecord): (text: string)
    ensures "[ " + d.product + " ]\n" <= text
  {
    "[ " + d.product + " ]\n"
    + "\U{20AC} " + d.price + "\n"
    + "Offerta del " + d.discount + "\n"
    + "Durata: " + PyStr(d.duration)
  }

  /** The four fields a deal message shows. */
  datatype Shown = Shown(product: string, price: string, discount: string, duration: string)

  predicate HasPrefix(s: string, p: string) {
    |p| <= |s| && s[..|p|] == p
  }

  predicate HasSuffix(s: string, p: string) {
    |p| <= |s| && s[|s| - |p|..] == p
  }

  /** Reads the four fields back out of a deal message. */
  function ParseDealText(text: string): Option<Shown> {
    var lines := SplitLines(text);
    if && |lines| == 4
       && |lines[0]| >= 4 && HasPrefix(lines[0], "[ ") && HasSuffix(lines[0], " ]")
       && HasPrefix(lines[1], "\U{20AC} ")
       && HasPrefix(lines[2], "Offerta del ")
       && HasPrefix(lines[3], "Durata: ")
    then
      Some(Shown(
        lines[0][2..|lines[0]| - 2],
        lines[1][2..],
        lines[2][|"Offerta del "|..],
        lines[3][|"Durata: "|..]))
    else None
  }

  /** The four lines of a deal message, split and read back field by field. */
  lemma ShownLinesRoundTrip(product: string, price: string, discount: string, duration: string)
    requires '\n' !in product && '\n' !in price && '\n' !in discount && '\n' !in duration
    ensures ParseDealText("[ " + product + " ]\n" + "\U{20AC} " + price + "\n"
        + "Offerta del " + discount + "\n" + "Durata: " + duration)
      == Some(Shown(product, price, discount, duration))
  {
    var l0 := "[ " + product + " ]";
    var l1 := "\U{20AC} " + price;
    var l2 := "Offerta del " + discount;
    var l3 := "Durata: " + duration;
    var text := "[ " + product + " ]\n" + "\U{20AC} " + price + "\n"
        + "Offerta del " + discount + "\n" + "Durata: " + duration;
    assert text == l0 + "\n" + (l1 + "\n" + (l2 + "\n" + l3));
    assert '\n' !in l0 by { assert forall k :: 0 <= k < |l0| ==> l0[k] == '\n' ==> false; }
    assert '\n' !in l1 by { assert forall k :: 0 <= k < |l1| ==> l1[k] == '\n' ==> false; }
    assert '\n' !in l2 by { assert forall k :: 0 <= k < |l2| ==> l2[k] == '\n' ==> false; }
    assert '\n' !in l3 by { assert forall k :: 0 <= k < |l3| ==> l3[k] == '\n' ==> false; }
    SplitLinesCons(l0, l1 + "\n" + (l2 + "\n" + l3));
    SplitLinesCons(l1, l2 + "\n" + l3);
    SplitLinesCons(l2, l3);
    SplitLinesPlain(l3);
    assert SplitLines(text) == [l0, l1, l2, l3];
    assert HasPrefix(l0, "[ ") && HasSuffix(l0, " ]") && l0[2..|l0| - 2] == product;
    assert HasPrefix(l1, "\U{20AC} ") && l1[2..] == price;
    assert HasPrefix(l2, "Offerta del ") && l2[|"Offerta del "|..] == discount;
    assert HasPrefix(l3, "Durata: ") && l3[|"Durata: "|..] == duration;
  }

  /**
   * A deal message determines the name, price, discount and duration it
   * shows, as long as none of them contains a line break.
   */
  lemma FormatDealRoundTrip(d: DealRecord)
    requires '\n' !in d.product && '\n' !in d.price && '\n' !in d.discount
    requires '\n' !in PyStr(d.duration)
    ensures ParseDealText(FormatDeal(d))
      == Some(Shown(d.product, d.price, d.discount, PyStr(d.duration)))
  {
    ShownLinesRoundTrip(d.product, d.price, d.discount, PyStr(d.duration));
  }

  /**
   * The link is read from the card but never sent: two deals that differ
   * only in their link give the same message.
   */
  lemma FormatDealIgnoresLink(d: DealRecord, l: string)
    ensures FormatDeal(d.(link := l)) == FormatDeal(d)
  {
  }

  /**
   * The page loop of the tick: every page in order, its records appended to
   * `all_deals`; the first fetch error is raised out of the loop.
   */
  method GatherDeals(fetch: string -> Response) returns (r: Outcome<seq<DealRecord>>)
    ensures r == Collect(fetch, DealsPages)
  {
    var allDeals: seq<DealRecord> := [];
    var i := 0;
    while i < |DealsPages|
      invariant 0 <= i <= |DealsPages|
      invariant Collect(fetch, DealsPages[..i]) == Done(allDeals)
    {
      var page := FetchDeals(fetch(DealsPages[i]));
      if page.Raised? {
        CollectSucceedsIff(fetch, DealsPages);
        return page;
      }
      CollectStep(fetch, DealsPages, i, allDeals);
      allDeals := allDeals + page.value;
      i := i + 1;
    }
    assert DealsPages[..i] == DealsPages;
    r := Done(allDeals);
  }

  /**
   * The messaging half of the tick, given what the page loop produced: the
   * error notice alone after an exception, the "no deals" notice alone for
   * an empty list, otherwise one formatted message per deal, in order.
   */
  method Announce(chatId: int, gathered: Outcome<seq<DealRecord>>) returns (outbox: seq<Message>)
    ensures gathered.Raised? ==> outbox == [Message(chatId, ErrorText)]
    ensures gathered == Done([]) ==> outbox == [Message(chatId, NoDealsText)]
    ensures gathered.Done? && gathered.value != [] ==>
      |outbox| == |gathered.value| &&
      forall i :: 0 <= i < |gathered.value| ==> outbox[i] == Message(chatId, FormatDeal(gathered.value[i]))
  {
    if gathered.Raised? {
      // except Exception: log, then one generic notice
      return [Message(chatId, ErrorText)];
    }
    var allDeals := gathered.value;
    if allDeals == [] {
      return [Message(chatId, NoDealsText)];
    }
    outbox := [];
    var j := 0;
    while j < |allDeals|
      invariant 0 <= j <= |allDeals|
      invariant |outbox| == j
      invariant forall k :: 0 <= k < j ==> outbox[k] == Message(chatId, FormatDeal(allDeals[k]))
    {
      outbox := outbox + [Message(chatId, FormatDeal(allDeals[j]))];
      j := j + 1;
    }
  }

  /**
   * One tick for the job's chat. The outgoing messages are exactly: the
   * error notice alone when any page failed (no partial results), the
   * "no deals" notice alone when no page had a card, and otherwise one
   * formatted message per deal in page-then-card order.
   */
  method SendDeals(chatId: int, fetch: string -> Response) returns (outbox: seq<Message>)
    ensures Collect(fetch, DealsPages).Raised? ==> outbox == [Message(chatId, ErrorText)]
    ensures Collect(fetch, DealsPages) == Done([]) ==> outbox == [Message(chatId, NoDealsText)]
    ensures Collect(fetch, DealsPages).Done? && Collect(fetch, DealsPages).value != [] ==>
      var deals := Collect(fetch, DealsPages).value;
      |outbox| == |deals| && forall i :: 0 <= i < |deals| ==> outbox[i] == Message(chatId, FormatDeal(deals[i]))
  {
    var gathered := GatherDeals(fetch);
    outbox := Announce(chatId, gathered);
  }
}
