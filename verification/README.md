# Copy-trading loop for MEXC futures: a Dafny model

The bot mirrors one leader account on MEXC futures onto a list of follower
accounts. Every few seconds it polls the leader's open positions and resting
orders. It compares them with what it tracked on the previous poll and fans
the differences out to the followers:

- a vanished position is closed everywhere;
- a new position is opened everywhere by market, unless a limit fill
  explains it;
- a vanished order is either forgotten (when it filled) or canceled
  everywhere;
- a new order is placed everywhere;
- an order whose price or volume changed is amended everywhere.

Each follower gets its own random leverage and a volume scaled by a random
percentage.

This project models that loop as a pure transition,
`Tracker.Tick(state, positions, orders, n, replies)`. The result is the next
state plus the follower calls the poll issues (`Dispatch`). The follower
replies the loop reads are inputs. The project also models the helpers
around the loop:

- the follower volume formula;
- the close side and the per-account close calls;
- reading entry and exit figures out of order history;
- turning placement and amend replies into follower links;
- the venue client's decoding of position listings and its history query
  parameters.

Modules:

- `Common`: `Option`, JSON scalars and records, and Python truthiness and
  `== 1`.
- `Records`: the leader's position and order records and the
  `(symbol, side)` key.
- `Venue`: the position listing decoders (`mexc.py`) and the history request
  parameters.
- `Links`: follower links built from placement and amend replies.
- `FanOut`: the follower volume (`max(1, int(vol * (1 + pct / 100)))`) and
  per-follower request planning.
- `Closing`: the close side and the close calls of `close_positions`.
- `History`: the latest filled open and close in an order history, with
  "N/A" fallbacks.
- `Tracker`: the loop's state, the position phase, the order phase and
  `Tick`.
- `TickProperties`: the properties of each phase and of one or two polls.

Two behaviours of the loop are modelled as written, and stated as lemmas:

- **Limit fill mirrored twice.** The position phase runs before the order
  phase. So when a tracked limit order fills and its position appears in the
  same poll, the position is opened on the followers by market. Only
  afterwards is its `(symbol, side)` marked as coming from a limit fill.
  That mark then stays, and in a later poll it silences an unrelated new
  position with the same symbol and side (`TickProperties.LimitFillQuirk`).
- **Failed fetch closes everything.** A failed position fetch returns an
  empty list, which the loop reads as "everything was closed"
  (`TickProperties.FailedFetchClosesAll`).

A further as-written detail: the links of a filled order are never removed
from the link table (`TickProperties.OrderRemoved`).

## Model

| member | source | states |
|---|---|---|
| Tracker.Tick | main.py:411-597 | After a poll, the tracked position ids are exactly those listed and the tracked order ids are exactly those listed. A close goes out for exactly each tracked position id missing from the listing, carrying the record cached for it. |
| Tracker.PositionPhase | main.py:411-484 | Vanished ids are closed with their cached record and untracked. Kept ids keep their cached record. Opened positions are listed records whose id was not tracked. Expected limit-fill keys only shrink. |
| Tracker.FreshPositions | main.py:441-442 | The new positions are the listed records with an untracked id, and there are none exactly when every listed id is tracked. |
| Tracker.FreshOrders | main.py:531-532 | The new orders are the listed records with an untracked id, and there are none exactly when every listed id is tracked. |
| Tracker.Admit | main.py:444-484 | Admitting new positions tracks every one of their ids, leaves other tracked ids alone, never adds an expected key, and opens only new records. |
| TickProperties.AdmitAdopts | main.py:456-469 | A new record is adopted (tracked but not opened) exactly when its key is expected and no earlier new record in the same poll carries that key. |
| TickProperties.AdmitOpens | main.py:471-484 | The records opened are exactly the new records not adopted, in listing order. |
| TickProperties.AdmitLimit | main.py:456-460 | Afterwards the expected keys are the previous ones minus the key of every new record. |
| TickProperties.AdmitLastWins | main.py:462-484 | A new position id is tracked with the values of its last record in the listing. |
| TickProperties.PositionDiff | main.py:413-444 | The closed ids are exactly the tracked ids the snapshot lacks, and the new ids are exactly the snapshot ids not tracked. The two sets are disjoint, and afterwards the tracked ids are the surviving ids plus the new ones. |
| TickProperties.PositionPhaseAdmits | main.py:441-484 | The position phase opens exactly the non-adopted new records and uses up the keys of all new records. |
| TickProperties.TickOpensUnexpected | main.py:456-478 | A new position whose symbol and side are not expected from a limit fill is opened on the followers. |
| TickProperties.OpensOnlyUnexpected | main.py:456-478 | With one position per symbol and side, every opened position's key was not expected. |
| TickProperties.TickOpensExactly | main.py:441-484 | With one position per symbol and side, a poll opens exactly the new positions whose key is not expected. |
| Tracker.OrderPhase | main.py:494-597 | After the order phase the tracked order ids are exactly those listed, and expected keys are only added. |
| TickProperties.OrderPhaseLimit | main.py:509-519 | The expected keys gain exactly the symbol and side of each vanished order whose position is listed, and nothing else. |
| TickProperties.OrderPhaseCancels | main.py:509-528 | Only a vanished order whose symbol and side no listed position has is canceled, and it is canceled on exactly the links it had. |
| TickProperties.OrderPhasePlaces | main.py:531-573 | The orders fanned out as new are exactly the listed orders whose id was not tracked. |
| Tracker.Place | main.py:534-573 | Placing new orders adds exactly their ids to the tracked orders and to the link table. |
| Tracker.AmendAll | main.py:577-597 | Amending never adds or removes a tracked order id or a link-table entry. |
| TickProperties.OrderRemoved | main.py:498-528 | A vanished order is untracked. If a position with its symbol and side is listed, its key becomes expected, nothing is canceled and its links stay. Otherwise its links are dropped and canceled, and a cancel goes out exactly when it had links. |
| TickProperties.OrderNew | main.py:531-573 | A new order is placed, tracked with its own values and linked to exactly the followers whose placement reply carried an order id. It gets no amend in the same poll. |
| TickProperties.PlaceFacts | main.py:534-573 | Placing new orders links each to the followers whose placement reply carried an order id. Other orders and links are left unchanged. |
| TickProperties.PlaceLastWins | main.py:566-573 | A placed order id is tracked with the values of its last record in the listing. |
| TickProperties.OrderChanged | main.py:577-597 | A tracked order whose price text or volume changed takes the new values. If it has links, it gets exactly one amend fan-out over them, and they are replaced by the links of the successful amends. Without links it gets no amend. |
| TickProperties.OrderUnchanged | main.py:577-586 | A tracked order whose records all match it keeps its record and links and gets no amend. |
| TickProperties.AmendFacts | main.py:577-597 | Amending never changes symbol, side, leverage or margin mode and never lengthens a link list. It leaves unlisted orders alone and only amends listed orders that are tracked and linked. |
| TickProperties.AmendLastWins | main.py:594-597 | A tracked order ends with the price text and volume of its last listed record. |
| TickProperties.AmendUntouched | main.py:577-586 | An order with no changed record keeps its record and links and gets no amend. |
| TickProperties.AmendNoChange | main.py:577-586 | When no listed order changed, the amend step changes nothing and sends nothing. |
| TickProperties.AmendChanged | main.py:586-597 | A changed order with consistent records is amended exactly once, with the new price text and volume. |
| TickProperties.AmendKeepsLinksValid | main.py:590-593 | Replacing links by the amended ones keeps every link list in account order and within the follower count. |
| TickProperties.OrderPhaseValid | main.py:565-566 | After the order phase every tracked order has a link list, and every link list is in account order. |
| TickProperties.TickValid | main.py:404-407 | A poll preserves the bookkeeping invariant: every tracked order has a link list, and every link list names followers below the follower count in account order. |
| TickProperties.TickTracksOrders | main.py:566-597 | After a poll every tracked order carries the price text and volume of its listed record. |
| TickProperties.PositionPhaseIdle | main.py:411-484 | A position listing of exactly the tracked ids closes, opens and changes nothing. |
| TickProperties.OrderPhaseIdle | main.py:494-597 | An order listing of exactly the tracked ids, none changed, cancels, places and amends nothing. |
| TickProperties.TickIdempotent | main.py:409-599 | Polling again with the same listings changes nothing and sends nothing, whatever the followers replied. |
| TickProperties.LimitFillQuirk | main.py:519 | A limit fill seen in the same poll as its position is also opened by market. Its key stays expected, and suppresses an unrelated later position with that symbol and side. |
| TickProperties.FailedFetchClosesAll | main.py:411-440 | A failed position fetch decodes to no positions. The poll then closes every tracked position, opens nothing, and treats every vanished order as canceled. |
| Links.LinkPlaced | main.py:552-565 | Placement links are, in account order, exactly the followers among the first n replies whose reply is successful and carries an order id, each with that id. |
| Links.FilterAmended | main.py:193-207 | Amend links are exactly the old links whose amend reply succeeded, each with the reply's data as the new id. They are never more than before and stay in account order. |
| FanOut.FollowerVolume | main.py:79-83 | A follower volume is at least 1 and is the truncation of the scaled volume, or 1 when that is below 1. |
| FanOut.TruncateMonotone | main.py:80 | Python's `int()` on a float is monotone. |
| FanOut.FollowerVolumeMonotone | main.py:157-161 | For a non-negative leader volume, a larger percentage never yields a smaller follower volume. |
| FanOut.PlanOpen | main.py:74-89 | One open request per follower, in account order, each with its own drawn leverage and the follower volume of its drawn percentage, and the leader's symbol, side, order kind and margin mode. |
| FanOut.PlanAmend | main.py:178-189 | One amend request per link, in link order, to that link's account and order, with the new price text and the follower volume of that link's percentage. |
| FanOut.PlanOpenWithinConfig | main.py:74-89 | With draws in the configured ranges, every follower's leverage is in range and its volume lies between those of the extreme percentages. |
| FanOut.PlanAmendWithinConfig | main.py:178-189 | With percentages in range, every amended follower volume lies between those of the extreme percentages. |
| Closing.CloseSide | main.py:224 | The close side is 4 exactly for a long (side 1), and 2 otherwise. |
| Closing.CloseSideInjective | main.py:224 | The two open sides get different close sides, so a close side determines the side it closes. |
| Closing.CloseTargets | main.py:223-274 | Each account's share of the calls is exactly one call per position of its own listing with the symbol and side, in listing order, with that position's id, leverage, volume and margin mode. Nothing else gets a call. All calls carry the close side. The leader comes first, then followers in account order. |
| Closing.CallsForOnePerMatch | main.py:230-247 | The calls for one listing are one per matching position, in listing order. |
| History.DirectionsExclusive | main.py:297-300 | No order counts as both a filled open and a filled close. |
| History.Latest | main.py:64-66 | The selected order is the first filled order in that direction, and there is none exactly when no order is filled in that direction. |
| History.PriceOf | main.py:67 | The fill price is `dealAvgPrice`, else `dealAvgPriceStr`, else N/A. |
| History.OpenOutcome | main.py:96-107 | A failed history or one without a filled open reports N/A. Otherwise the entry price is the fill price and the margin the `orderMargin` of the newest filled open. |
| History.CloseOutcome | main.py:292-314 | N/A everywhere unless both a filled open and a filled close exist. Then margin and entry price come from the newest filled open, and P/L (`profit`) and exit price from the newest filled close. |
| History.CloseFromNewest | main.py:292-314 | The close summary's four figures are read from the first filled open and the first filled close of the newest-first history. |
| History.CloseAgreesWithOpen | main.py:307-313 | When a filled close exists, the close summary's entry price and margin equal the open summary's. |
| Venue.SideOf | mexc.py:195-200 | The side is 1 exactly when `positionType == 1` (Python's `True` included), and 3 otherwise, a missing member included. |
| Venue.DecodeOpen | mexc.py:194-211 | `vol` and `holdVol` both carry `holdVol`. `profit` is `closeProfitLoss`, or 0 when missing. The side follows `SideOf`. Every other member is the venue's member of the same name, or missing. |
| Venue.DecodeHistory | mexc.py:251-268 | The same mapping without the profit default: `closeProfitLoss`, `closeAvgPrice` and `state` are copied as sent, or missing. |
| Venue.DecodeOpenPositions | mexc.py:162-213 | A response without a truthy `success` yields no positions. Otherwise there is one decoded record per listed record, in order, and every side is 1 or 3. |
| Venue.DecodeHistoryPositions | mexc.py:243-270 | The same for position history. |
| Venue.DecodersAgree | mexc.py:251-268 | Both decoders read the shared members alike. The open profit is the history P/L with 0 for missing. |
| Venue.HistoryParams | mexc.py:227-238 | Page number and size come first. One parameter is added per truthy filter, and names are distinct. |
| Venue.HistoryParamsLookup | mexc.py:227-238 | Read back as a dict, the parameters hold page number and size always, and each filter exactly when it is truthy, with the value passed. |

## Left out

- Telegram messages, console output and the message texts: they are side
  effects with no bearing on the state.
- Loading the account files, HTTP sessions, proxies, request signing and
  the endpoints themselves. A response enters the model as its parsed JSON
  body. The follower replies a poll reads are inputs (`Tracker.Replies`),
  keyed by leader order id.
- asyncio concurrency, `gather`, and the sleeps between polls and before
  reading history. Each poll is one atomic transition.
- Random draws (leverage, volume percentage) are parameters (`FanOut.Draw`,
  `pcts`).
- FanOut.FollowerVolume: computes `vol * (1 + pct / 100)` exactly, not
  in IEEE doubles. Where the float product falls just below an integer
  (100 * 1.15 gives 114.99999999999999), the code yields one less than the
  model. The lower bound of 1 holds either way.
- JSON `null` is not modelled: a member is either present with a number,
  string or boolean, or absent.
- `str(order['price'])` is taken as given: an order's price enters as its
  text.
- Tracker.Tick: two records with the same order id in one listing share
  the follower replies of that id, because replies are keyed by id. The loop
  would place the order twice and keep the links of the second fan-out.
- The follower accounts are indices `0..n-1`. Their client objects and
  `load_accounts` are not modelled.
- The close fan-out returns its calls (`Closing.CloseTargets`), but
  `Tick`'s dispatch records only which leader positions are closed. The
  fresh listings each close reads are separate inputs.
- The history summaries are pure functions of an order history. The
  history requests and their failure (an exception) enter as `None`.
- Where `main.py` and `mexc.py` do not match as written, the model follows
  the loop:
  - `main.py` imports the client from `api.mexc`;
  - it calls client methods that `mexc.py` does not define:
    `get_open_orders`, `open_position_limit`, `change_limit_order`,
    `cancel_order` and `get_order_history`;
  - `mexc.py` defines `open_position` (mexc.py:74) and `close_position`
    (mexc.py:124) with five parameters, but `main.py` passes six, the
    margin mode last (main.py:87-88, 244-245, 266-267). Those two methods
    also fix the margin mode themselves;
  - it reads `openType` from position records that the decoder never sets.
  The model takes the leader's records with the members the loop reads.
- `close_positions` receives the closed position's leverage, volume and
  margin mode. The volume and margin mode are never used, and the leverage
  appears only in the message text (main.py:336). The close calls take each
  account's own record, as the model does.
- An exception that nothing catches ends the bot. Examples are a failed
  request or unparsable body in the leader's listings (main.py:410, 494),
  an error raised by a follower call inside the `gather`s (main.py:91, 169,
  191, 218, 226, 278, 435, 487), and `result.json()` on an open reply
  (main.py:491). Such an exception propagates out of `main()`, and the
  handler at main.py:603-608 only reports it. The model assumes every poll
  completes. `Unparseable` replies stand only for the parse errors the loop
  catches.
- No retry and no rate limiting exist in the code, so none are modelled.
