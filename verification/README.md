# The OKX gateway, modelled and verified

This project states in Dafny what the gateway to the OKX exchange does in its stateful parts, and proves
properties of it that hold for every input, every run and every reachable state. `dafny verify dfyconfig.toml`
checks all of it.

Where the source changes objects step by step, so does the model: `Controller`, `MarketData`, `DropCopy`,
`OrderEntry`, `Rest`, the throttle interceptor and the book filter are classes whose methods have the branches of
the handlers they stand for. Each method is proved to take the step of a pure function, and the properties of
runs are proved about that function.

| module | subject |
|---|---|
| `Json` | a compact JSON tree, its rendering and its reader (RFC 8259, sections 4 to 7), each the inverse of the other |
| `Encoder`, `Readback` | the order messages: the text the encoders build, and what the venue reads in it |
| `SubscribeText` | the subscription messages and their prefix and separator trick |
| `Subscription`, `SubscriptionRuns`, `SubscriptionDetail`, `LateChannels`, `Candles`, `Gateway` | the symbol registry, its slices, the market data streams and the business stream; first as step functions with their invariants, then as objects |
| `AccountSync`, `AccountRuns`, `AccountLedger`, `StaleOrders`, `OldAnswers`, `AccountGateway` | the account download shared by the web socket and REST sides, in the same two forms |
| `Trades`, `Books` | the trade batching loop and the order book sequence filter |
| `Throttle` | the rate limit interceptor over whole histories of responses |
| `Dispatch` | the message classifier |
| `Instruments` | the three-way instruments download |

## What is proved

* **Subscriptions.** In every interleaving of client subscriptions, instrument data, connections, logins, timers
  and disconnects, what a READY stream has sent since it became READY, followed by what it still queues, asks
  on each data channel for exactly its slice of the registry, in order and each instrument once. Asking
  incrementally and asking again after a reconnect cover the same on the data channels; on the derived ones, exactly
  for the instruments that did not turn out late to carry a funding rate. When all streams are READY the venue has been
  asked for the whole registry. The texts that the timers put on the sockets, read as JSON, say so, and none is put
  there twice.
* **Account download.** States only move forward; READY is published at most once in a login, and by then the
  journal of that login holds, in order, each channel's acknowledgement, the question for its snapshot and an
  answer, then the stale order round and its settlement if there was one, then the trades if they are wanted.
  The stale order counter is exact in every run. It is settled, both ways, when the stale round can crash the
  process, when it hangs, when READY comes with queries still unanswered, and when a snapshot's answer is a stale
  one, told by what is outstanding at the login; for each there is a run from the start of the process in which it happens.
* **Texts.** Every order message and every subscription message is the rendering of an intended tree, whatever
  the buffer held before, and reads back to the fields that were meant: a placement to the order type, margin mode
  and amounts of the order, cancel-all to the codes and identifiers of exactly the orders the venue knows, so two
  different batches never share a text.
* **Streams of data.** Trade summaries are the maximal runs of one instrument, field by field; what is published of
  a book message is its items in order, side by side; published book sequences increase across reconnects, and
  replayed single-item messages change nothing.

## Where the code departs from its evident intent

The code is modelled as it is. The lemmas named after each departure say exactly when it shows, or when the code
does what was meant, and give a run or an input in which it does show.

* `src/roq/okx/gateway/market_data.cpp:405-410`: the label of a flushed group is the next group's
  (`Trades.LabelsAreRightIff`).
* `src/roq/okx/gateway/market_data.cpp:487`: a stale item drops the rest of its message
  (`Books.EarlyReturnIsHarmlessIff`).
* `src/roq/okx/gateway/market_data.cpp:710-719`: the derived channel of an instrument can change at a reconnect
  (`LateChannels.DerivedAgreesIff`, `LateChannels.DerivedMayDiffer`).
* `src/roq/okx/gateway/order_entry.cpp:675-689`: nothing commits a stale round that finds no listed order and has
  nothing outstanding (`StaleOrders.StuckIff`, `StaleOrders.DrainHangsIff`, `StaleOrders.HangHappens`).
* `src/roq/okx/gateway/drop_copy.cpp:925`: this fatal error is reachable after a reconnect
  (`StaleOrders.CrashReachableIff`, `StaleOrders.CrashHappens`).
* `src/roq/okx/gateway/order_entry.cpp:508-510`: answers to the queries of an earlier round can settle a new one
  before it is drained, and READY is then published with the queries of the round unanswered
  (`StaleOrders.ReadyTooSoonIff`, `StaleOrders.ReadyTooSoonHappens`).
* `src/roq/okx/gateway/order_entry.cpp:238`: an answer left over from before a reconnect is taken for the
  answer to a question not even sent (`OldAnswers.OldAnswerIff`, `AccountLedger.AnswerIsFreshIff`, `AccountLedger.StaleAnswerAccepted`).
* `src/roq/okx/gateway/controller.cpp:98`: the business stream shares an identifier with the static data stream
  (`Gateway.Controller.constructor`).
* `src/roq/okx/protocol/json/encoder.cpp:118`: `ccy` is lost when a self trade prevention mode is set
  (`Readback.ExtrasHonouredIff`).
* `src/roq/okx/protocol/json/encoder.cpp:47`: the test for fill-or-kill is inverted with respect to the table in
  `src/roq/okx/index.rst:349-408`; the model follows the code (`Encoder.TableHonouredIff`).
* `src/roq/okx/gateway/rest.cpp:205-209`: a reply with an error code opens the instruments gate like any other
  (`Instruments.RoundFetchesAllIff`, `Instruments.RefusedRoundCommits`).
* `src/roq/okx/gateway/rest.cpp:162`: the flags fall with the connection, so that until the next sending any reply,
  even a failed one, declares the download over (`Instruments.RoundCommitsIff`, `Instruments.LostRoundCommits`,
  `Instruments.NothingReceivedCommits`).
* `src/roq/okx/tools/throttle.cpp:76`: Retry-After is taken for milliseconds since the epoch, unlike section 10.2.3
  of RFC 9110; `src/roq/okx/tools/throttle.cpp:90`: and it is ignored when its value is the one seen last
  (`Throttle.RetryAfterHonouredIff`, `Throttle.HalfMinuteIsFiveSeconds`, `Throttle.RepeatedHeaderIsIgnored`).
* `src/roq/okx/tools/throttle.cpp:110`: a 429 counts only as the first trigger of all
  (`Throttle.TooManyHonouredIff`, `Throttle.SecondTooManyIsIgnored`).

## What is assumed of code that is not in the repository

* The symbol table appends, returns the number of slices and the old length, and cuts consecutive chunks of
  `max_subscriptions_per_stream` (`src/roq/okx/gateway/shared.cpp:14`).
* A rate limited queue is first in, first out, and lets any prefix go at a timer.
* The download helper visits the states in order; the callback's result is the number of acknowledgements to
  await, 0 means go on; `check` and `check_relaxed` for a state other than the current one do nothing; `reset`
  goes idle; `begin` starts over.
* A rate limited request, when asked for, becomes pending and loses its response; it fires once per question;
  `commit` sets the response. In the account protocol every REST request is answered once, first come first
  served.
* A socket announces itself ready once per connection.
* A visitor of JSON members that returns true ends the walk; hashes of keys do not collide. An enumeration read
  from the empty string is the undefined one, from any other string without an enumerator the unknown one.
* Debug assertions are compiled out, as in a release build.

## Model

| member | source | states |
|---|---|---|
| `Json.ReadIffRendered` | src/roq/okx/protocol/json/encoder.cpp:124-182 | a text reads as a tree if and only if it is that tree's rendering and the tree is plain |
| `Json.RenderInjective` | src/roq/okx/protocol/json/encoder.cpp:124-182 | different plain trees have different texts |
| `Encoder.ComputeOrderAttributes` | src/roq/okx/protocol/json/encoder.cpp:25-79 | the reassigning switches compute the order type, reduce-only flag or error of the closed form |
| `Encoder.TableHonouredIff` | src/roq/okx/index.rst:349-408 | on every row of the documented table the code agrees with it if and only if the row is not fill-or-kill and no plain resting limit order is bound for RPI |
| `Encoder.EnvelopeRenders` | src/roq/okx/protocol/json/encoder.cpp:299-324 | the envelope template around any list of arguments is the rendering of the id, op and args object |
| `Encoder.BatchOrders` | src/roq/okx/protocol/json/encoder.cpp:84-221 | leaves exactly the text of the placement, whatever the buffer held; both errors leave it empty |
| `Encoder.BatchAmendOrders` | src/roq/okx/protocol/json/encoder.cpp:223-261 | leaves exactly the rendering of the amendment tree, whatever the buffer held |
| `Encoder.BatchCancelOrder` | src/roq/okx/protocol/json/encoder.cpp:263-290 | leaves exactly the rendering of the cancellation tree, whatever the buffer held |
| `Encoder.BatchCancelOrders` | src/roq/okx/protocol/json/encoder.cpp:292-327 | the loop with the first flag leaves exactly the rendering of one object per pair, in order, also for none |
| `Readback.EnvelopeReadsBack` | src/roq/okx/protocol/json/encoder.cpp:299-324 | the envelope reads back to itself, with its id, op and args |
| `Readback.PlacementMeaning` | src/roq/okx/protocol/json/encoder.cpp:120-219 | a placement reads back to the intended fields: px and pxAmendType iff not market, tgtCcy iff market and spot, stpMode iff configured, ccy iff wanted and no mode is configured; nothing else, and no name twice |
| `Readback.PlacementSaysOrder` | src/roq/okx/protocol/json/encoder.cpp:84-221 | the text of a placement says, by literal names, the margin mode, order type and reduce-only flag the order asks for; there is none iff the order type is unsupported, or else the margin mode is that of a portfolio |
| `Readback.ExtrasHonouredIff` | src/roq/okx/protocol/json/encoder.cpp:113-119 | the trailing members are the requested ones if and only if not both were requested |
| `Readback.AmendmentMeaning` | src/roq/okx/protocol/json/encoder.cpp:231-260 | under its id and operation an amendment reads back to the new values or the order's own and the amend type, names the order by exactly one identifier, and holds nothing else |
| `Readback.CancellationMeaning` | src/roq/okx/protocol/json/encoder.cpp:270-289 | under its id and operation a cancellation reads back to the instrument code and exactly one identifier, the venue's if known, and nothing else |
| `Readback.CancelAllRoundTrip` | src/roq/okx/protocol/json/encoder.cpp:292-327 | a batch reads back to the request id and the pairs in order, codes of either sign |
| `Readback.CancelAllInjective` | src/roq/okx/protocol/json/encoder.cpp:292-327 | equal texts mean equal request ids and equal pairs |
| `Readback.CancellableSelects` | src/roq/okx/gateway/drop_copy.cpp:291-297 | the pairs are those of the orders at increasing places, exactly the places of orders with an external id |
| `Readback.CancelAllOrders` | src/roq/okx/gateway/drop_copy.cpp:288-310 | nothing is sent iff no order has an external id; otherwise one text that reads back, in order, to the codes and ids of exactly the orders that have one |
| `SubscribeText.ItemRenders` | src/roq/okx/gateway/market_data.cpp:740-751 | prefix, value and closing text are the rendering of one channel and selector object |
| `SubscribeText.JoinRenders` | src/roq/okx/gateway/market_data.cpp:738-757 | joining with the separator that closes one object and opens the next renders the list of objects |
| `SubscribeText.ListTextIsRendering` | src/roq/okx/gateway/business.cpp:385-404 | the list overload's text is the rendering of the subscription tree |
| `SubscribeText.ScalarIsSingleton` | src/roq/okx/gateway/market_data.cpp:722-736 | the scalar overload's text is the list overload's for a list of one |
| `SubscribeText.ListReadsBack` | src/roq/okx/gateway/market_data.cpp:738-757 | the venue reads back the channel and the instruments, in order and nothing else |
| `Subscription.DerivedCovers` | src/roq/okx/gateway/market_data.cpp:710-719 | the derived requests cover each instrument once on one of two channels by its being extended, or on both |
| `Subscription.ServedIff` | src/roq/okx/gateway/market_data.cpp:687-708 | which depths are served, and by which channel, by access to the VIP channels; by literal names |
| `SubscriptionRuns.FreshIsNew` | src/roq/okx/gateway/controller.cpp:148-155 | what a registration adds has no repeats and is exactly the names not registered before |
| `SubscriptionRuns.FreshKeepsOrder` | src/roq/okx/gateway/controller.cpp:148-155 | new names are registered in the order of their first appearance |
| `SubscriptionRuns.RegisterKeepsRegistry` | src/roq/okx/gateway/controller.cpp:146-160 | registering keeps the ordered registry free of repeats and equal, as a set, to all symbols |
| `SubscriptionRuns.SliceGrows` | src/roq/okx/gateway/controller.cpp:231-235 | a slice after growth is the slice before it and the part of it from the old length on |
| `SubscriptionRuns.NextSlice` | src/roq/okx/gateway/controller.cpp:231-235 | the n-th slice continues the registry from n chunks to n + 1 |
| `SubscriptionRuns.CountCovers` | src/roq/okx/gateway/controller.cpp:231-235 | the slices are enough for the registry, and one fewer would not be |
| `SubscriptionRuns.AskOk` | src/roq/okx/gateway/market_data.cpp:179-183 | an incremental subscription takes a stream complete for the old registry to one complete for the new |
| `SubscriptionRuns.BecomeReadyOk` | src/roq/okx/gateway/market_data.cpp:246-249 | a stream that becomes READY has asked for exactly its slice |
| `SubscriptionRuns.ReadyIff` | src/roq/okx/gateway/market_data.cpp:230-253 | a stream becomes READY exactly at the acknowledgement of its login, or without an account when its socket is ready, and stays so until the socket is lost |
| `SubscriptionRuns.StepKeepsInv` | src/roq/okx/gateway/controller.cpp:229-253 | every event keeps the registry exact, one stream per slice, stream i at index i, and READY streams complete |
| `SubscriptionRuns.RunKeepsInv` | src/roq/okx/gateway/controller.cpp:229-253 | the same in every run |
| `SubscriptionRuns.ReadyStreamsAreComplete` | src/roq/okx/gateway/market_data.cpp:678-720 | in every run a READY stream has sent and queued, per channel, exactly its slice, each instrument once |
| `SubscriptionRuns.IncrementalAgreesWithResubscription` | src/roq/okx/gateway/market_data.cpp:179-196 | in every run a READY stream has asked for what it would ask for after losing and regaining its connection |
| `SubscriptionRuns.RegistryIsCovered` | src/roq/okx/gateway/controller.cpp:229-239 | when all streams are READY they have together asked for the whole registry in order |
| `SubscriptionRuns.HeardIsCovered` | src/roq/okx/gateway/market_data.cpp:738-757 | what the venue reads in the texts of a list of requests is what the requests cover |
| `SubscriptionRuns.TimerMoves` | src/roq/okx/gateway/market_data.cpp:651-654 | what a timer puts on the socket, followed by what stays queued, is what was queued, and is what the record of sent texts gains |
| `SubscriptionRuns.EmittedIsSent` | src/roq/okx/gateway/market_data.cpp:651-654 | in every run the record of what a stream has sent since it became READY is what its timers have put on the socket |
| `SubscriptionDetail.StepKeepsDrawn` | src/roq/okx/gateway/market_data.cpp:678-720 | every request names a known channel and a non-empty list of registered instruments |
| `SubscriptionDetail.AskedIsHeard` | src/roq/okx/gateway/market_data.cpp:738-757 | in every run, on any channel, what the timers have put on the socket and what is queued is read by the venue as what has been asked for |
| `SubscriptionDetail.TextsAreHeard` | src/roq/okx/gateway/market_data.cpp:651-654 | in every run the texts the timers of a READY stream have put on its socket, and those queued, are read by the venue, per data channel, as its slice |
| `SubscriptionDetail.NothingIsSentTwice` | src/roq/okx/gateway/market_data.cpp:651-654 | after a timer that may send the whole queue the venue has heard the slice from the socket alone, once, and no further timer sends anything |
| `SubscriptionDetail.StepKeepsTyped` | src/roq/okx/gateway/rest.cpp:322-347 | every event keeps the derived channels in line with the type of instruments first registered from instrument data |
| `SubscriptionDetail.DerivedChannelFollowsType` | src/roq/okx/gateway/market_data.cpp:710-719 | with bad subscriptions off, such an instrument gets funding-rate iff it is a swap or future and index-tickers iff not |
| `SubscriptionDetail.StepGrowsRegistry` | src/roq/okx/gateway/static_data.cpp:354-389 | earlier contents are a prefix of later ones; an instrument loop registers exactly the new instruments it does not discard, and marks exactly the swaps and futures among those |
| `LateChannels.StepKeepsLate` | src/roq/okx/gateway/market_data.cpp:710-719 | every event keeps account of which derived channel a READY stream has asked for, and of the instruments that came late |
| `LateChannels.DerivedAgreesIff` | src/roq/okx/gateway/market_data.cpp:710-719 | in every run, for an instrument of a READY stream's slice, a reconnect repeats the choice of derived channel if and only if the instrument was not late |
| `LateChannels.NativeIsNeverLate` | src/roq/okx/gateway/rest.cpp:322-347 | an instrument first registered from consistent instrument data is never late |
| `LateChannels.DerivedMayDiffer` | src/roq/okx/gateway/market_data.cpp:710-719 | a run in which index-tickers was asked for and a reconnect would not ask for it |
| `Candles.HappensKeepsOk` | src/roq/okx/gateway/business.cpp:155-179 | every event keeps a READY business stream complete for the registry |
| `Candles.CandlesAreComplete` | src/roq/okx/gateway/business.cpp:373-383 | in every run a READY business stream has asked for the candles of exactly the registry, each instrument once, and a reconnect would ask for the same |
| `Candles.CandlesAreHeard` | src/roq/okx/gateway/business.cpp:364-367 | in every run the texts the timers of a READY business stream have put on its socket, and those queued, are read as the registry; a timer that may send all leaves nothing to send again |
| `Gateway.Shared.AddSymbols` | src/roq/okx/gateway/controller.cpp:231 | appends, and returns the slice count and the old length |
| `Gateway.MarketData.Subscribe` | src/roq/okx/gateway/market_data.cpp:179-183 | a READY stream queues the requests for its slice from a position on, any other stream nothing |
| `Gateway.MarketData.SubscribeSymbols` | src/roq/okx/gateway/market_data.cpp:678-709 | queues the four batch requests and the derived ones, in that order |
| `Gateway.MarketData.SubscribeDerived` | src/roq/okx/gateway/market_data.cpp:710-719 | the loop queues the derived requests of each instrument in order |
| `Gateway.MarketData.SubscribeOne` | src/roq/okx/gateway/market_data.cpp:722-736 | the scalar text queued stands for a request of one instrument |
| `Gateway.MarketData.SubscribeList` | src/roq/okx/gateway/market_data.cpp:738-757 | the list text queued stands for one request |
| `Gateway.MarketData.OnDownload` | src/roq/okx/gateway/market_data.cpp:230-253 | which states wait for an acknowledgement, and READY before the whole slice is subscribed |
| `Gateway.MarketData.Begin` | src/roq/okx/gateway/market_data.cpp:198-201 | a new connection logs in, or without an account is READY at once |
| `Gateway.MarketData.LoginAcknowledged` | src/roq/okx/gateway/market_data.cpp:607-615 | a login acknowledgement makes a stream READY only if it was waiting for one |
| `Gateway.MarketData.CheckSubscribeQueue` | src/roq/okx/gateway/market_data.cpp:651-654 | while READY, a prefix of the queued texts leaves the queue for the socket, as long as the limiter lets it; what is left stays in order |
| `Gateway.MarketData.SocketDisconnected` | src/roq/okx/gateway/market_data.cpp:190-196 | clears the queue and the download |
| `Gateway.Controller.constructor` | src/roq/okx/gateway/controller.cpp:114-122 | numbers the first streams 1, 2, 3 and so on; the business stream gets the number of the static data stream |
| `Gateway.Controller.EnsureSymbolSlices` | src/roq/okx/gateway/controller.cpp:243-253 | grows the streams to one per slice, keeps the old ones, and numbers the new ones consecutively |
| `Gateway.Controller.AskStreams` | src/roq/okx/gateway/controller.cpp:233-235 | every stream, and each of them once, is told to subscribe from a position on |
| `Gateway.Business.Subscribe` | src/roq/okx/gateway/business.cpp:155-159 | a READY business stream queues one request for the registry from a position on, any other nothing |
| `Gateway.Business.SocketReady` | src/roq/okx/gateway/business.cpp:173-179 | a new connection asks for the whole registry and is READY |
| `Gateway.Business.CheckSubscribeQueue` | src/roq/okx/gateway/business.cpp:364-367 | while READY, a prefix of the queued texts leaves the queue for the socket, as long as the limiter lets it; what is left stays in order |
| `Gateway.Business.SocketDisconnected` | src/roq/okx/gateway/business.cpp:166-171 | clears the queue and is READY no more |
| `Gateway.Controller.SymbolsUpdated` | src/roq/okx/gateway/controller.cpp:229-239 | takes exactly the step of a symbols update, and tells the business stream, if there is one |
| `Gateway.Controller.RegisterNames` | src/roq/okx/gateway/controller.cpp:149-155 | the insertion loop returns exactly the fresh names and inserts them |
| `Gateway.Controller.Subscribe` | src/roq/okx/gateway/controller.cpp:146-160 | takes exactly the step of a client subscription |
| `Gateway.InstrumentSource.RegisterInstruments` | src/roq/okx/gateway/rest.cpp:231-340 | the loop returns the fresh instruments that are kept, and inserts those with a funding rate |
| `Gateway.InstrumentSource.Instruments` | src/roq/okx/gateway/static_data.cpp:276-399 | takes exactly the step of a message of instrument data |
| `Gateway.IdsDistinctIff` | src/roq/okx/gateway/controller.cpp:245 | identifiers are pairwise distinct if and only if there are at most 65536 streams |
| `Gateway.Handle` | src/roq/okx/gateway/market_data.cpp:179-253 | whatever event reaches the objects, together they take the step it stands for, and no other stream moves, and return the texts a timer sends |
| `Gateway.HandlePair` | src/roq/okx/gateway/business.cpp:155-179 | with a business stream, any event at all takes the step of the pair |
| `AccountRuns.EnterEmitsOne` | src/roq/okx/gateway/drop_copy.cpp:357-419 | entering a state subscribes, asks or publishes exactly once, passing over only the two optional states under their guards |
| `AccountRuns.QueriesSentIff` | src/roq/okx/gateway/order_entry.cpp:670-691 | a REST timer sends a query iff it was asked for and is let go; the order queries are for the listed ones of the lost orders |
| `AccountRuns.StatesAdvance` | src/roq/okx/gateway/drop_copy.cpp:357-419 | in a login every event leaves the state or moves it strictly forward, skipping only the two optional states |
| `AccountRuns.StepKeepsJournal` | src/roq/okx/gateway/drop_copy.cpp:436-476 | every event keeps the journal, the settlement of the stale order round included, in line with the state the download has reached |
| `AccountRuns.ReadyIsEarned` | src/roq/okx/gateway/drop_copy.cpp:886-938 | in every run READY at most once per login, after each acknowledgement, question and answer in order: the four snapshots, the stale order round if there was one, and the trades if wanted |
| `AccountLedger.StepKeepsLedgers` | src/roq/okx/gateway/order_entry.cpp:223-239 | every event keeps the account of which answer on the wire belongs to which question |
| `AccountLedger.AnswerIsFreshIff` | src/roq/okx/gateway/drop_copy.cpp:886-938 | an accepted answer belongs to the latest question iff more answers have come than were on the wire when it was asked |
| `AccountLedger.QuestionIsSentOnce` | src/roq/okx/gateway/order_entry.cpp:670-691 | in every run a question is sent once: its kind has as many requests on the wire and answers since as were owed before, and one more once it has left |
| `AccountLedger.SettledLoginIsFresh` | src/roq/okx/gateway/drop_copy.cpp:543-549 | a login that finds nothing outstanding among the snapshots it may wait for accepts only answers to its own questions |
| `AccountLedger.StaleAnswerAccepted` | src/roq/okx/gateway/drop_copy.cpp:317-322 | a run in which the download moves on with an answer from before a reconnect, its own question unsent |
| `OldAnswers.OldAnswerIff` | src/roq/okx/gateway/drop_copy.cpp:543-549 | after any run, the login that begins now can accept an old answer iff some kind of request it may wait for has a question unsent or on the wire |
| `StaleOrders.StepKeepsCounted` | src/roq/okx/gateway/order_entry.cpp:675-689 | every event keeps the counter equal to the queries on the wire, and only a full set at the end of a round is fatal |
| `StaleOrders.StaleAccounting` | src/roq/okx/gateway/order_entry.cpp:483-512 | in every run the fatal error of an unexpected answer is unreachable, and a round commits exactly on the answer that leaves none outstanding |
| `StaleOrders.RoundsBegin` | src/roq/okx/gateway/drop_copy.cpp:397-404 | every way into the stale order state begins a round with a question pending and a set to drain |
| `StaleOrders.CrashReachableIff` | src/roq/okx/gateway/drop_copy.cpp:922-928 | within its login a round can end in the fatal error iff queries of an earlier round were on the wire when it began |
| `StaleOrders.CrashHappens` | src/roq/okx/gateway/drop_copy.cpp:922-928 | a run from the start of the process that ends in the fatal error |
| `StaleOrders.StepKeepsTidy` | src/roq/okx/gateway/order_entry.cpp:675-689 | a round with no debts stays one: undrained and unanswered, or drained and answered only when nothing is outstanding |
| `StaleOrders.CalmRunsNeverCrash` | src/roq/okx/gateway/drop_copy.cpp:916-929 | runs that lose the socket and log in only with no stale query due or on the wire never crash |
| `StaleOrders.SettlingRunsNeverCrash` | src/roq/okx/gateway/drop_copy.cpp:916-929 | neither do runs that lose the socket and log in only outside the stale order state |
| `StaleOrders.StuckIff` | src/roq/okx/gateway/order_entry.cpp:675-689 | in every run the download is stuck for good in its login iff it waits for a round that has been drained and not settled, with no query on the wire |
| `StaleOrders.DrainHangsIff` | src/roq/okx/gateway/order_entry.cpp:675-689 | in every run a drain leaves the download stuck iff no order of the set is listed, no query is on the wire and the round had not been settled before |
| `StaleOrders.VainDrainPasses` | src/roq/okx/gateway/order_entry.cpp:508-510 | a run from the start of the process in which a drain finds nothing listed and nothing on the wire, and does not stick |
| `StaleOrders.HangHappens` | src/roq/okx/gateway/order_entry.cpp:675-689 | a run from the start of the process after which the download is stuck |
| `StaleOrders.ReadyTooSoonIff` | src/roq/okx/gateway/order_entry.cpp:508-510 | within its login a round can be left, and READY published, with queries unanswered iff queries of an earlier round were on the wire when it began |
| `StaleOrders.ReadyTooSoonHappens` | src/roq/okx/gateway/drop_copy.cpp:413-415 | a run from the start of the process that publishes READY with queries about stale orders unanswered |
| `AccountGateway.Request.CheckPending` | src/roq/okx/gateway/order_entry.cpp:671-674 | fires iff allowed and pending, and then is pending no more |
| `AccountGateway.DropCopy.OnDownload` | src/roq/okx/gateway/drop_copy.cpp:357-419 | acknowledges nothing to wait for exactly in the final and the skipped states, and does what entering the state means |
| `AccountGateway.DropCopy.Advance` | src/roq/okx/gateway/drop_copy.cpp:357-419 | state after state until one has something to wait for |
| `AccountGateway.DropCopy.LoginReceived` | src/roq/okx/gateway/drop_copy.cpp:543-549 | takes the step of a login |
| `AccountGateway.DropCopy.SubscribeReceived` | src/roq/okx/gateway/drop_copy.cpp:436-476 | takes the step of a subscription acknowledgement, by channel |
| `AccountGateway.DropCopy.CheckStaleOrders` | src/roq/okx/gateway/drop_copy.cpp:940-964 | adds the lost orders to the shared set and tells whether any was new |
| `AccountGateway.DropCopy.CheckRequestQueue` | src/roq/okx/gateway/drop_copy.cpp:886-938 | takes the step of the socket side's timer |
| `AccountGateway.DropCopy.SocketDisconnected` | src/roq/okx/gateway/drop_copy.cpp:317-322 | takes the step of a lost socket: only the download state is reset |
| `AccountGateway.OrderEntry.DrainStaleOrders` | src/roq/okx/gateway/order_entry.cpp:675-689 | one query per listed order, each counted, and the set is emptied whatever was found |
| `AccountGateway.OrderEntry.CheckRequestQueue` | src/roq/okx/gateway/order_entry.cpp:670-691 | takes the step of the REST side's timer, requests in the order of the source |
| `AccountGateway.OrderEntry.AnswerReceived` | src/roq/okx/gateway/order_entry.cpp:223-239 | commits, whether the answer was a success or not |
| `AccountGateway.OrderEntry.TradeOrderAnswered` | src/roq/okx/gateway/order_entry.cpp:483-512 | counts down, is fatal at zero, and commits on reaching zero |
| `AccountGateway.SocketSideIsCore` | src/roq/okx/gateway/drop_copy.cpp:886-938 | what the socket side does to its part is what the core does to the whole |
| `AccountGateway.RestSideIsCore` | src/roq/okx/gateway/order_entry.cpp:670-691 | what the REST side does to its part is what the core does to the whole |
| `AccountGateway.Handle` | src/roq/okx/gateway/drop_copy.cpp:357-476 | whatever event reaches the two objects, together they take the core's step and emit its actions |
| `Trades.BatchTrades` | src/roq/okx/gateway/market_data.cpp:381-438 | one summary per maximal run, with its trades, its own maxima, the label as written and the last flag |
| `Trades.GroupsAreMaximalRuns` | src/roq/okx/gateway/market_data.cpp:404-423 | the groups are non-empty, of one instrument each, neighbours differ, and concatenate to the input |
| `Trades.MaximalRunsAreGroups` | src/roq/okx/gateway/market_data.cpp:404-423 | those properties determine the groups |
| `Trades.MaximaAreMaxima` | src/roq/okx/gateway/market_data.cpp:400-421 | the running values are upper bounds and, unless zero, attained |
| `Trades.SummaryTells` | src/roq/okx/gateway/market_data.cpp:404-436 | every summary holds its own run's trades field by field, time and sequence attained as maxima, the next run's label, and the last flag if there is no next |
| `Trades.TradesAreConserved` | src/roq/okx/gateway/market_data.cpp:424-436 | the summaries concatenate to the input's trades, field by field, none is empty, and exactly the last is flagged last |
| `Trades.LabelsAreRightIff` | src/roq/okx/gateway/market_data.cpp:405-410 | all labels name their own trades if and only if the whole message is of one instrument |
| `Books.Clamped` | src/roq/okx/gateway/market_data.cpp:495-508 | price and size are kept; the number of orders fits 16 bits and is unchanged if it did already |
| `Books.BookFilter.EmplaceAll` | src/roq/okx/gateway/market_data.cpp:509-514 | keeps the levels in order, each clamped |
| `Books.BookFilter.Accept` | src/roq/okx/gateway/market_data.cpp:485-492 | accepts iff the number exceeds the stored one, and stores it then |
| `Books.BookFilter.OnBooks` | src/roq/okx/gateway/market_data.cpp:471-522 | publishes exactly the items before the first one that is not newer, each with its own sides level by level, flag, time and number, and stores the last of them for this instrument only |
| `Books.AcceptedTellsOf` | src/roq/okx/gateway/market_data.cpp:476-522 | what is published of a message tells of its items in order, side by side and level by level, up to the first one not newer than the one before |
| `Books.EarlyReturnIsHarmlessIff` | src/roq/okx/gateway/market_data.cpp:486-488 | the early return loses nothing if and only if nothing after the accepted prefix is newer than it |
| `Books.PublishedIncreases` | src/roq/okx/gateway/market_data.cpp:485-492 | in every run, per instrument, published numbers are positive and strictly increasing and the table holds the last |
| `Books.OtherInstrumentsUntouched` | src/roq/okx/gateway/market_data.cpp:485-492 | a message changes neither the table nor the publications of other instruments |
| `Books.RecordsArePublished` | src/roq/okx/gateway/market_data.cpp:476-492 | when the messages of an instrument carry one item, exactly the strict left-to-right maxima are published |
| `Books.ReplayImmunity` | src/roq/okx/gateway/market_data.cpp:484-514 | replays of items already seen do not change what is published of an increasing feed |
| `Throttle.Interceptor.MessageHeader` | src/roq/okx/tools/throttle.cpp:63-95 | takes the step of a header |
| `Throttle.Interceptor.MessageEnd` | src/roq/okx/tools/throttle.cpp:97-119 | takes the step of the end of a response |
| `Throttle.SuspensionIsLatestTarget` | src/roq/okx/tools/throttle.cpp:63-119 | for any history the suspension is the maximum of the targets of all 403s, all changed Retry-After values and a 429 that came first |
| `Throttle.SuspensionNeverShrinks` | src/roq/okx/tools/throttle.cpp:97-105 | whatever follows, the suspension is not cut short, and a 403 suspends for at least ten minutes |
| `Throttle.FutureMomentIsWaitedFor` | src/roq/okx/tools/throttle.cpp:76-79 | a new value in the future suspends until that moment at least, and until exactly it if nothing triggered before |
| `Throttle.PastMomentIsFiveSeconds` | src/roq/okx/tools/throttle.cpp:80-82 | a new value that is not in the future suspends for at least five seconds, and for exactly five if nothing triggered before |
| `Throttle.HeaderNameIff` | src/roq/okx/tools/throttle.cpp:30-50 | the header is recognised by its name whatever the case of its letters, and no other is |
| `Throttle.DisabledNeverSuspends` | src/roq/okx/tools/throttle.cpp:70-72 | a disabled interceptor never suspends, whatever the history |
| `Throttle.RetryAfterHonouredIff` | src/roq/okx/tools/throttle.cpp:63-95 | after any history the delay in seconds that a Retry-After asks for is granted iff its value is new and at most five, or a counted event reaches as far |
| `Throttle.HalfMinuteIsFiveSeconds` | src/roq/okx/tools/throttle.cpp:76-82 | half a minute asked for, five seconds granted |
| `Throttle.RepeatedHeaderIsIgnored` | src/roq/okx/tools/throttle.cpp:84-95 | five seconds asked for again a minute later, nothing granted |
| `Throttle.TooManyHonouredIff` | src/roq/okx/tools/throttle.cpp:109-115 | a 429 is followed by its five seconds iff nothing triggered before or a counted event reaches as far |
| `Throttle.SecondTooManyIsIgnored` | src/roq/okx/tools/throttle.cpp:109-115 | a second 429 ten seconds after the first holds nothing back |
| `Dispatch.WalkArgument` | src/roq/okx/protocol/json/parser.cpp:96-167 | the nested loop decides by the first channel member, if there is one |
| `Dispatch.Walk` | src/roq/okx/protocol/json/parser.cpp:41-170 | the walk ends with the verdict of the first decisive member, or unhandled if there is none |
| `Dispatch.Classify` | src/roq/okx/protocol/json/parser.cpp:38-176 | at most one handler is called, exactly one iff handled, and it is the first decisive member's; unhandled is fatal unless allowed |
| `Dispatch.AcknowledgementIsNotData` | src/roq/okx/protocol/json/parser.cpp:67-98 | an event that precedes any argument and operation is never taken for channel data |
| `Dispatch.ArgumentFirstIsData` | src/roq/okx/protocol/json/parser.cpp:96-167 | an argument with a known channel in front is always taken for channel data |
| `Dispatch.UnknownIsPassedOver` | src/roq/okx/protocol/json/parser.cpp:47-163 | an operation, event or channel terminates iff its text is empty, calls a handler iff the text is one of those listed, and otherwise calls none |
| `Dispatch.SubscribedIsHandled` | src/roq/okx/protocol/json/parser.cpp:96-163 | the data of every channel that is subscribed goes to that channel's own handler, and no two data channels of a stream share one |
| `Instruments.Rest.RequestInstruments` | src/roq/okx/gateway/static_data.cpp:241-244 | the question is pending and its response cleared |
| `Instruments.Rest.CheckRequestQueue` | src/roq/okx/gateway/rest.cpp:432-440 | sends the three requests and raises the three flags, once per question |
| `Instruments.Rest.GetInstrumentsAck` | src/roq/okx/gateway/rest.cpp:196-226 | a parsed reply lowers its flag, and any reply that finds all flags low commits |
| `Instruments.Rest.Disconnected` | src/roq/okx/gateway/rest.cpp:158-163 | lowers all flags and commits nothing |
| `Instruments.FlagsFollowHistory` | src/roq/okx/gateway/rest.hpp:78 | in every run a flag is up iff the history, read backwards, shows a sending before any reply or disconnect |
| `Instruments.ResponseFollowsHistory` | src/roq/okx/gateway/rest.cpp:220-224 | in every run the response is there iff a download has ended since the latest question |
| `Instruments.RequestsFollowFlags` | src/roq/okx/gateway/rest.cpp:432-440 | in every run a type is requested exactly when its question goes out, once, and its flag goes up with the request |
| `Instruments.CommitsIff` | src/roq/okx/gateway/rest.cpp:220-224 | in every run an event commits iff it is a reply that leaves nothing outstanding |
| `Instruments.RoundCommitsIff` | src/roq/okx/gateway/rest.cpp:196-226 | until the next sending a reply commits iff the connection has been lost since, or by then each of the three types has had a reply that parsed |
| `Instruments.RoundFetchesAllIff` | src/roq/okx/gateway/rest.cpp:203-219 | a round without a disconnect, declared over, has fetched all three types iff no reply that parsed carried an error code |
| `Instruments.RefusedRoundCommits` | src/roq/okx/gateway/rest.cpp:205-209 | a round declared over with one type refused by the venue |
| `Instruments.LostRoundCommits` | src/roq/okx/gateway/rest.cpp:158-163 | from the loss of the connection to the next sending any reply declares the download over |
| `Instruments.NothingReceivedCommits` | src/roq/okx/gateway/rest.cpp:158-163 | so a round can end with nothing received at all |

## Left out

- Connections, URIs, TLS, proxies, pings, metrics, logging, flags and configuration files: wiring.
- Login messages, signatures, time stamps in ISO 8601: the work is in libraries that are not in the repository.
- Prices and quantities are the decimal texts the formatting library makes; not-a-number in an amendment is an absent text. Floating point and rounding are not modelled.
- The maps between the gateway's enumerations and the venue's, `guess_error`, reference data and market status: finite tables and field copying.
- JSON escapes, white space, fractions, exponents and null: none of the gateway's own messages has them. The read-back lemmas therefore ask that the strings a caller supplies hold no quotation mark, backslash or control character, which the encoders do not escape.
- Subscription.Serviceable: settings with which the gateway terminates at the first subscription (an unsupported depth, or depth 50 without an account) or cuts slices of length zero are excluded from the runs.
- Gateway.Business.SubscribeSymbols: the second queue, from which Rest asks for the history of candles, is not modelled. The guard on the lookback is, as the condition under which the stream exists.
- Gateway.InstrumentSource.Instruments: StaticData's own download and its three fixed subscriptions are not modelled, nor the order in which a handler's messages reach the dispatcher.
- Gateway.MarketData.OnDownload: the UNDEFINED state is excluded; only a debug assertion guards it in the source.
- AccountGateway.DropCopy.OnDownload: the UNDEFINED state is excluded, for the same reason, and the intermediate DOWNLOADING statuses are not recorded.
- AccountGateway.OrderEntry.AnswerReceived: the contents of the snapshots, and what the order management system does with them, are not modelled; neither are parsing failures that end the process.
- AccountGateway.DropCopy.CheckStaleOrders: the order in which keys are visited is arbitrary, as in an unordered set; the overload with a trace argument (`src/roq/okx/gateway/drop_copy.cpp:966`) is never called.
- Books.BookFilter.OnBooks: the checksum, the warning about a gap in the previous sequence numbers, and what the real order book does with an update.
- Throttle.Interceptor.MessageHeader: the value of a header arrives parsed, and 64-bit overflow of milliseconds times a million is not modelled. The lemmas about histories ask for positive clocks.
- Dispatch.Walk: op, event and channel values that are not strings are treated like unknown strings; a message that is malformed after its decisive member counts as read up to there; decoding a handler's message is not part of this model.
- Handlers do not call back into the gateway while a message is handled; the dispatcher is a log.
- The candle filter and the enumeration of time series requests: one-line tests.
