# AmaScrapeBot, modelled in Dafny

AmaScrapeBot is a Telegram bot. On a repeating job it fetches four Amazon.it
deals pages and extracts one record per deal card: product name, price,
discount, remaining duration and link. It then sends the chat one message per
deal, or a single "no deals" or error notice. Three commands drive the job:
`/setinterval <seconds>` changes the process-wide `INTERVAL`, `/run` replaces
the single global `current_job` with a new repeating job, and `/stop` removes it.

The model has six modules, one per concern of `AmaScrapeBot.py`:

- `Wrappers` holds `Option`.
- `PyBuiltins` models the Python behaviour the logic relies on: `str.isspace` and `str.strip`, BeautifulSoup's `get_text(strip=True)` over a tag's text nodes, `int()` on a string with the blanks `int()` itself skips, `str()` of an int, and the exceptions as an `Outcome`. It also has a model of `str.split("\n")`; the bot never splits a string, and the model uses it only to read a sent message back into its fields (`Tick.FormatDealRoundTrip`).
- `Deals` models `fetch_deals`. A card is the tuple of what each `select_one` found, and each per-field fallback is a small function. `FetchDeals` is the card loop, proved to yield one record per card in order.
- `Tick` models `send_deals`. `GatherDeals` is the page loop and is proved equal to `Collect`, the concatenation of the pages' records in `DEALS_PAGES` order. `Announce` is the message half. `SendDeals` composes the two, as the `try` block does.
- `Scheduler` holds the class `Bot`. Its fields are `INTERVAL`, `current_job`, the job queue's set of still-scheduled jobs and a job identity counter. Its methods are `SetInterval`, `Run` and `Stop`, and a few client methods show what callers can rely on.
- `AsWritten` models the two places where the code does not do what it evidently means to (see "Findings").

The rest of the model uses the corrected behaviour.

Inputs that the program gets from the outside are parameters:
- A page fetch is a function `fetch: string -> Response` from URL to `Page(cards)` or `HttpError`.
- The `DEFAULT_INTERVAL` environment value, already converted, is the constructor's argument.
- Messages sent are returned as a sequence of `Message(chatId, text)`.
- Replies to commands are returned as strings.

## Model

| member | source | states |
|---|---|---|
| PyBuiltins.StripBy | AmaScrapeBot.py:37-39 | stripping by a set of blank characters leaves a text that neither starts nor ends with a blank, and is empty exactly when the input is all blanks; it serves both `str.strip()` and the blanks `int()` skips at line 82 |
| PyBuiltins.StripBySlice | AmaScrapeBot.py:37-39 | stripping by a set of blanks keeps one contiguous slice of the input, inner characters included, and cuts off only blanks before and after it |
| PyBuiltins.Strip | AmaScrapeBot.py:37-39 | `str.strip()`: the stripped text neither starts nor ends with whitespace, and is empty exactly when the input is all whitespace |
| PyBuiltins.StripSlice | AmaScrapeBot.py:37-39 | `str.strip()` returns a slice `s[i..j]` of its input, inner whitespace kept, and everything before `i` and from `j` on is whitespace |
| PyBuiltins.StripKeeps | AmaScrapeBot.py:37-39 | every non-whitespace character of the input is kept, at its own place within the slice |
| PyBuiltins.StripIdempotent | AmaScrapeBot.py:37-39 | stripping twice is stripping once |
| PyBuiltins.GetText | AmaScrapeBot.py:37-39 | `get_text(strip=True)` never starts or ends with whitespace, and is empty exactly when every text node is blank |
| PyBuiltins.ParseInt | AmaScrapeBot.py:82 | `int()` succeeds only when something is left after skipping its blanks, and a negative result comes only from a leading minus sign |
| PyBuiltins.ParseIntAlphabet | AmaScrapeBot.py:82 | `int()` of the argument succeeds only when every character is an `int()` blank, a digit, an underscore or a sign; any other character, including the separators U+001C to U+001F that `str.strip()` would remove, is a ValueError |
| PyBuiltins.ParseIntBlank | AmaScrapeBot.py:82 | an empty or blank argument is a ValueError |
| PyBuiltins.ShowNat | AmaScrapeBot.py:83 | `str()` of a natural number is a non-empty run of decimal digits with no leading zero |
| PyBuiltins.ShowInt | AmaScrapeBot.py:83 | `str()` of an integer starts with a minus sign exactly when it is negative, followed by the digits of its magnitude |
| PyBuiltins.DigitsValueShowNat | AmaScrapeBot.py:83 | the decimal digits `str()` prints for a natural number denote that number |
| PyBuiltins.ParseShowNat | AmaScrapeBot.py:82-83 | the digits `str()` prints form a digit run that `int()` accepts, and denote the number |
| PyBuiltins.ParseShowInt | AmaScrapeBot.py:82-83 | `int(str(n)) == n` for every integer n, with no digit limit: the interval a reply prints is the one parsed |
| Deals.LinkOf | AmaScrapeBot.py:34-36 | the link is the sentinel exactly when there is no anchor, no href or an empty href; otherwise it is the origin followed by the href, recoverable by cutting the origin off |
| Deals.ExtractCard | AmaScrapeBot.py:30-46 | name and price are the element's stripped text or "N/D"; the discount is `.a-color-price`'s text when found, else `.a-size-mini.a-color-base`'s, else "0%"; the duration is "sconosciuta" without a timer, else the `data-deal-duration` attribute, None when it is absent; the link is `LinkOf` of the anchor |
| Deals.EmptyCardSentinels | AmaScrapeBot.py:30-46 | a card on which no lookup finds anything still yields a record, with every field at its sentinel |
| Deals.FieldsMayBeEmpty | AmaScrapeBot.py:37-40 | a name element without text gives an empty name, and a timer without the attribute gives no duration |
| Deals.RelativeHrefResolves | AmaScrapeBot.py:36 | a relative href such as "/deal/123" resolves to the origin followed by it |
| Deals.PageDeals | AmaScrapeBot.py:28-48 | one record per card, the i-th record built from the i-th card |
| Deals.FetchDeals | AmaScrapeBot.py:24-48 | an HTTP error raises; a fetched page gives exactly one record per card, in card order, none dropped or merged, zero cards giving none |
| Tick.Collect | AmaScrapeBot.py:55-57 | the page loop can raise only the fetch error |
| Tick.CollectSucceedsIff | AmaScrapeBot.py:54-57 | the deals are collected exactly when every page was fetched: one failed page fails the whole batch |
| Tick.CollectConcat | AmaScrapeBot.py:55-57 | collecting two page lists in turn is collecting their concatenation: records keep page order, and the first error wins |
| Tick.CollectStep | AmaScrapeBot.py:56-57 | one more fetched page appends its records after those already collected |
| Tick.GatherDeals | AmaScrapeBot.py:55-57 | the page loop over `DEALS_PAGES` computes `Collect` of those pages |
| Tick.FormatDeal | AmaScrapeBot.py:64-69 | a deal message starts with the line "[ name ]" |
| Tick.ShownLinesRoundTrip | AmaScrapeBot.py:64-69 | the four lines "[ name ]", "€ price", "Offerta del discount", "Durata: duration", when no field contains a line break, split back into exactly those four fields |
| Tick.FormatDealRoundTrip | AmaScrapeBot.py:64-69 | when no field contains a line break, the name, price, discount and duration can be read back from a deal message, a missing duration as "None" |
| Tick.FormatDealIgnoresLink | AmaScrapeBot.py:41-69 | the link never reaches the chat: deals that differ only in their link give the same message |
| Tick.Announce | AmaScrapeBot.py:59-73 | after an exception only the error notice; for no deals only the "no deals" notice; otherwise one formatted message per deal, in order, to the job's chat |
| Tick.SendDeals | AmaScrapeBot.py:51-73 | a tick sends exactly the error notice when any page fails (no partial results), exactly the "no deals" notice when the pages have no card, and otherwise one message per deal in page-then-card order |
| Scheduler.Bot.constructor | AmaScrapeBot.py:17-18 | INTERVAL is the configured value or 3600; there is no job |
| Scheduler.Bot.SetInterval | AmaScrapeBot.py:79-85 | a parseable first argument becomes INTERVAL, with no sign check, and is echoed; a missing or non-integer argument changes nothing and gets the usage reply; the job is untouched |
| Scheduler.Bot.Run | AmaScrapeBot.py:87-93 | any previous job is removed; exactly one job is scheduled afterwards, new, for this chat, with the current INTERVAL and first=0; the reply echoes the interval |
| Scheduler.Bot.Stop | AmaScrapeBot.py:95-102 | afterwards no job is scheduled and current_job is cleared; the reply says whether a job was stopped or nothing was running |
| Scheduler.RunTwice | AmaScrapeBot.py:87-93 | two runs in one chat leave one job, the second |
| Scheduler.RunFromTwoChats | AmaScrapeBot.py:88-92 | a run from another chat removes the first chat's job: the one job is global, not per chat |
| Scheduler.IntervalFixedAtRun | AmaScrapeBot.py:92 | the job keeps the interval it was created with across a later /setinterval |
| Scheduler.StopTwice | AmaScrapeBot.py:95-102 | a second /stop finds nothing running |
| Scheduler.NonPositiveIntervalsAccepted | AmaScrapeBot.py:82 | "0" and "-5" parse, so they become the interval |
| Scheduler.NegativeIntervalSet | AmaScrapeBot.py:79-83 | `/setinterval -5` sets INTERVAL to -5 and replies with the usual confirmation |
| AsWritten.CardLoop | AmaScrapeBot.py:29-47 | the card loop finishes only if every card's step succeeds, with one record per card in order; when it raises, the exception is one that some card's step raised |
| AsWritten.FetchDealsAsWritten | AmaScrapeBot.py:24-48 | as written, an HTTP error raises; a result, when there is one, has one record per card |
| AsWritten.ScopeAtLink | AmaScrapeBot.py:35 | of the names that matter for line 36, `rel_url` is bound to the href or None, and `relative_url` is bound nowhere: not assigned in `fetch_deals`, not a module global, not a builtin |
| AsWritten.LinkIn | AmaScrapeBot.py:36 | reading a name raises exactly when it is bound nowhere, and then NameError; a link other than the sentinel is the origin followed by the bound href |
| AsWritten.ExtractCardAsWritten | AmaScrapeBot.py:30-47 | one iteration as written can raise only NameError; when it does not raise, the record differs from the corrected one at most in its link |
| AsWritten.NameErrorOnEveryCard | AmaScrapeBot.py:35-36 | as written, building the link reads a name that is bound nowhere, so every card raises NameError ("name 'relative_url' is not defined") |
| AsWritten.FetchDealsAsWrittenFails | AmaScrapeBot.py:28-48 | as written, fetch_deals raises exactly on pages with at least one card |
| AsWritten.BoundNameGivesLink | AmaScrapeBot.py:35-36 | reading the local that line 35 binds gives exactly `Deals.LinkOf` |
| AsWritten.FormatAsWritten | AmaScrapeBot.py:64-69 | the f-string as written raises, and only with KeyError, exactly when one of the keys `nome`, `prezzo`, `sconto`, `durata` is missing |
| AsWritten.KeyErrorOnEveryRecord | AmaScrapeBot.py:64-69 | as written, formatting any record that fetch_deals builds raises KeyError, because the records use other keys |
| AsWritten.TickKeysGiveMessage | AmaScrapeBot.py:64-69 | under the keys the tick reads, the f-string is exactly `Tick.FormatDeal` |
| AsWritten.SendLoopAsWritten | AmaScrapeBot.py:63-70 | the send loop sends at most one message per deal, all to the job's chat, and one per deal when nothing raises |
| AsWritten.Dicts | AmaScrapeBot.py:41-47 | each record becomes, in order, the dict of lines 41-47 |
| AsWritten.KeyMismatchSendsNothing | AmaScrapeBot.py:63-73 | even with line 36 repaired, a non-empty deal list sends no deal message, because the first one raises |
| AsWritten.CollectAsWritten | AmaScrapeBot.py:55-57 | the page loop as written raises only the fetch error or NameError, and no pages give no deals; `CollectAsWrittenNoDeals` states when it succeeds and that it then yields nothing |
| AsWritten.CollectAsWrittenNoDeals | AmaScrapeBot.py:55-57 | as written, the page loop yields a list, always empty, exactly when every page is fetched and has no card |
| AsWritten.SendDealsAsWritten | AmaScrapeBot.py:51-73 | a tick as written sends at least one message, all to the job's chat |
| AsWritten.AsWrittenTickNeverSendsDeals | AmaScrapeBot.py:51-73 | as written, every tick sends one message, never a deal: the "no deals" notice when all pages are empty, the error notice otherwise |
| AsWritten.OneCardPerPage | AmaScrapeBot.py:51-73 | with one card on every page, the code as written sends only the error notice, while the corrected page loop yields four records |

## Behaviour worth knowing

- The code keeps one global `current_job` (AmaScrapeBot.py:18, 90-92), where one might expect one job per chat. A `/run` from any chat replaces the job of whichever chat ran last (`Scheduler.RunFromTwoChats`).
- The code accepts any integer for `/setinterval` (AmaScrapeBot.py:82), where one might expect a positive number of seconds. `0` and negative values become the interval (`Scheduler.NonPositiveIntervalsAccepted`, `Scheduler.NegativeIntervalSet`).
- The code aborts the whole tick on one failed page, where one might expect the other pages' deals to be sent. The single error notice is sent instead (`Tick.CollectSucceedsIff`, `Tick.SendDeals`).
- The code can produce empty fields, where one might expect every field to have a value or a sentinel. A found element without text gives an empty string, and a timer without `data-deal-duration` gives Python's None, which the message prints as "None" (`Deals.FieldsMayBeEmpty`).
- The code's `int()` accepts Python's literal forms: surrounding blanks, one sign, and single underscores between digits, up to the digit limit named under "Left out".
- The code treats an empty href as absent, since an empty string is falsy, so it gives the "not available" link.

## Findings

| source | as written | input that shows it | evidently intended | confidence | as-written member | corrected member |
|---|---|---|---|---|---|---|
| AmaScrapeBot.py:35-36 | line 35 binds `rel_url`, line 36 reads `relative_url`, which is bound nowhere (not a local, global or builtin), so every card raises NameError and every non-empty page fails the tick | any page with one card, e.g. a card whose anchor has href "/dp/B0" | line 36 reads `rel_url` | high; not executed | AsWritten.FetchDealsAsWritten, shown by AsWritten.NameErrorOnEveryCard and AsWritten.OneCardPerPage | Deals.LinkOf, with AsWritten.BoundNameGivesLink |
| AmaScrapeBot.py:42-45, 65-68 | records are keyed `Prodotto`, `Prezzo`, `Sconto`, `Durata`; the tick reads `nome`, `prezzo`, `sconto`, `durata`, so the first deal raises KeyError and no deal is ever sent | any non-empty deal list, e.g. the record of an empty card | the tick reads the keys the records are built with | high; not executed | AsWritten.FormatAsWritten, shown by AsWritten.KeyErrorOnEveryRecord and AsWritten.KeyMismatchSendsNothing | Tick.FormatDeal, with Tick.FormatDealRoundTrip and AsWritten.TickKeysGiveMessage |

## Left out

- HTTP fetching (`requests.get`, `raise_for_status`) is network I/O. Each page is an abstract `Response`. Transport exceptions such as ConnectionError are folded into the one fetch error; all of them reach the same `except` clause.
- BeautifulSoup parsing and CSS selector matching are a foreign library. A card is given by what each `select_one` found: an element with its text nodes and attributes.
- Telegram transport, `send_message`, `reply_text` and async/await are left out. Sends are returned as a message sequence and always succeed. A send that fails midway would leave the earlier messages delivered and add the error notice; that case is not modelled.
- JobQueue timing, repetition, and the immediate first firing are left out. Only the job record (chat, interval, first=0), the set of scheduled jobs and removal are modelled.
- Logging, the `start` greeting and `main` wiring are plumbing left out. So is reading `DEFAULT_INTERVAL`: its converted value is the constructor's argument, and a start-up crash on a malformed value is not modelled.
- PyBuiltins.ParseInt: no digit limit. Since Python 3.11 (and the 2022 security releases of 3.7 to 3.10), `int()` of a literal with more than 4300 digits raises ValueError, and so does `str()` of such a number; the model accepts and prints any length. `/setinterval` cannot reach the limit, because a Telegram message holds at most 4096 characters, and the start-up path is already left out below. `PyBuiltins.ShowInt` and `PyBuiltins.ParseShowInt` share this.
- `int()` also accepts non-ASCII decimal digits such as Arabic-Indic numerals. The model accepts ASCII digits only.
- Per-chat job registries and partial-failure-tolerant aggregation are not implemented by the code, so they are not modelled.
- Scheduler.Bot.SetInterval: the reply for a successful call is stated, but a `reply_text` failure after INTERVAL has changed is not modelled.
