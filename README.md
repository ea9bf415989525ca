# Bot pool coordinator and offer reconciler

A Dafny model of the core of a marketplace's trading-bot pool. Each bot
(`SteamBot`) keeps a session to the trading platform, counts the items its
account holds, sends trade offers, and settles the offers it sent when their
state changes. The pool coordinator (`BotManager`) builds the bot list from
the active bot configurations and picks a bot for each dispatch request.

Modules:

- `Values` (values.dfy): `Option`, and `OrElse`, JavaScript's
  `Number(x) || fallback` on an optional number.
- `Persistence` (persistence.dfy): trade records, marketplace listings and
  activity-log entries. The in-memory `Store` class holds the three
  collections. `FirstIndex` is `find`/`findOne`, `MarkOffer` is `updateMany`
  by offer id, and `SoftDelete` is `updateOne` setting `isDeleted`.
- `Reconciler` (reconciler.dfy): `Reconciled`, the pure statement of what one
  `sentOfferChanged` event does to the three stores, and the lemmas that
  state the settlement rules.
- `Bot` (bot.dfy): the `SteamBot` class. It has the constructor, the
  loggedOn, pollFailure and pollData handlers, the two send primitives
  `SendOfferToBot` and `SendOfferFromBot`, and `SentOfferChanged`.
  `SentOfferChanged` updates a `Store` with the same loops as the source.
  Its postcondition says the store ends exactly in the `Reconciled` state.
- `Manager` (manager.dfy): the `BotManager` class, holding a `seq<SteamBot>`.
  It has the activation loop, the two selectors and the two dispatchers.
  A dispatch returns its outcome, meaning the callback invocations it makes,
  as a value.

External calls become inputs:

- the inventory request at log-on is an `InventoryReply`;
- each platform send, and whether the caller's callback throws on the
  send's answer or on a failure report, is a `SendAttempt`;
- the exchange details are an `ExchangeReply`;
- the stored price feed and the live lowest prices are maps from the market
  hash name;
- the configuration query is an `Option<seq<BotConfig>>`, where None means
  the query threw.

Offer states are the numbers of the trade-offer library's `ETradeOfferState`,
in which Accepted is 3.

Behaviour of the code worth knowing:

- Only states 5, 6, 7 and 10 (Expired, Canceled, Declined,
  CanceledBySecondFactor) fold to "Declined". Countered (4) and InvalidItems
  (8) are ignored by the handler.
- Settlement is not idempotent. No record status is checked before settling,
  so a replayed Accepted event writes listings and log entries again. This is
  stated by `AcceptReplayAppendsAgain`.
- `sendOfferFromBot` can invoke its callback twice. When the caller's
  callback throws, the catch block invokes it again with the failure report.
  That second call is not guarded: if it throws too, the promise never
  settles and the outbound batch waits forever. A failure report that throws
  after a failed build or send rejects the promise and ends the batch.
- A withdrawal soft-deletes only the first listing of each (user, asset id)
  pair, even when that one is already flagged. A later live duplicate, such
  as one left by a replayed deposit, stays listed.
- The inbound selector does not back off or time out (see Left out).
- A mixed send-and-receive exchange is not flagged. It silently writes
  nothing.

## Model

| member | source | states |
|---|---|---|
| `Persistence.FirstIndex` | newBot.js:115-118 | the index returned is of an element satisfying the predicate, no earlier element satisfies it, and None means no element does (the `find` / `findOne` rule) |
| `Persistence.MarkOffer` | newBot.js:87-95 | every record carrying the offer id gets the new status (and accepted true when asked), no other field changes, records with other ids are unchanged, none added or removed |
| `Values.OrElse` | newBot.js:132-134 | the falsy-number fallback: a present nonzero value is kept; an absent or zero value gives the fallback; the result is 0 only when both are absent or 0 |
| `Persistence.FindRecord` | newBot.js:81-85 | `findOne({offerId})`: the first record carrying the offer id, None exactly when no record carries it |
| `Persistence.SoftDelete` | newBot.js:221-224 | no listing is added or removed; exactly the first listing of the (user, asset id) pair, in store order, gains the deleted flag (even if already flagged); every other listing is unchanged |
| `Reconciler.ReferencePrice` | newBot.js:109-114 | with no price entry the price is 0; otherwise the first entry's max when it is unstable, else its avg, with a missing figure giving 0 |
| `Reconciler.RequestedItem` | newBot.js:115-118 | the item found is the first of the record's requested items with the received item's original asset id; None only when no requested item has that asset id |
| `Reconciler.Settle` | newBot.js:96-238 | settling an accepted offer leaves the records alone, only appends to the log, and never removes a listing, changes its user or asset id, or clears its deleted flag |
| `Reconciler.Reconciled` | newBot.js:71-243 | one event keeps every record, changing at most status and accepted and only on the event's offer; it only appends to the log, keeps every listing's user, asset id and deleted flag, and touches listings and log only for state Accepted |
| `Reconciler.DeclineMarksRecords` | newBot.js:73-79 | for states 5, 6, 7 and 10 with items on either side, every record of the offer becomes "Declined" with nothing else changed; other records, all listings and the log are unchanged |
| `Reconciler.DeclineWithoutItemsIsNoop` | newBot.js:74 | a declined-class event with both item lists empty changes nothing |
| `Reconciler.OtherStatesAreNoop` | newBot.js:73-80 | any state other than Accepted and the four declined-class states changes nothing |
| `Reconciler.AcceptUnknownOfferIsNoop` | newBot.js:81-86 | Accepted for an offer id no record carries changes nothing |
| `Reconciler.AcceptConfirmsRecords` | newBot.js:86-95 | Accepted for a known offer sets status "Confirm" and accepted true on every record of the offer and leaves the others alone, whatever the exchange details are |
| `Reconciler.ExchangeFailureWritesNothing` | newBot.js:96-102 | when the exchange details fail, the records stay confirmed and no listing or log entry is written |
| `Reconciler.MixedOrEmptyExchangeWritesNothing` | newBot.js:103-238 | with items on both sides, or on neither, no listing and no log entry is written |
| `Reconciler.SettlementBranches` | newBot.js:103-238 | received-only items append the receive loop's listings and log entries; sent-only items apply the send loop's soft deletes and append its log entries |
| `Reconciler.DepositListingPerItem` | newBot.js:120-150 | for "Deposit", each received item gives exactly one listing, in order: listed, unsold, not deleted, asset id = new asset id, user and owner = the record's user, sell price = requested value or 6666, commission = requested value or 1, price = reference price, this bot's name and id |
| `Reconciler.DepositLogPerItem` | newBot.js:151-161 | for "Deposit", each received item gives exactly one "sellOnMarketplace" log entry, in order, with the original asset id and sell terms that default to 0 |
| `Reconciler.InventoryTransferPerItem` | newBot.js:162-209 | for "sendGoFestInventory", each received item gives one unlisted listing whose sell terms fall back from the requested item to the record to 0, and one "SteamToGoFestInventory" log entry |
| `Reconciler.OtherReceiveTypesWriteNothing` | newBot.js:120-210 | any other trade type writes nothing in the receive branch |
| `Reconciler.WithdrawKeepsKeys` | newBot.js:216-224 | the send loop keeps every listing's user and asset id and never clears a deleted flag |
| `Reconciler.WithdrawOnlyFlagsSentListings` | newBot.js:216-224 | for "Withdraw", no listing is added or removed, and a listing that changes only gains the deleted flag, belongs to the record's user and has a sent item's asset id |
| `Reconciler.WithdrawFlagsSentItem` | newBot.js:220-224 | for "Withdraw", a sent item that had a listing of the record's user ends with a listing of that pair flagged deleted |
| `Reconciler.WithdrawLogPerItem` | newBot.js:225-235 | for "Withdraw", each sent item gives one "GoFestToSteamInventory" log entry, in order, priced at the live lowest price or 0, carrying the record's sell terms or 0 |
| `Reconciler.OtherSendTypesWriteNothing` | newBot.js:215-237 | any other trade type writes nothing in the send branch |
| `Reconciler.AcceptReplayAppendsAgain` | newBot.js:86-95 | a second identical Accepted event for a deposit appends the listings and the log entries again (no status gate) |
| `Bot.SteamBot.constructor` | newBot.js:27-45 | a new bot is not running, holds 0 items, keeps its name, id, account id and identity secret, and waits for its first log-on |
| `Bot.SteamBot.LoggedOn` | newBot.js:47-61 | on the first log-on with an inventory answer the count becomes the fetched count if nonzero and is kept otherwise, and the bot runs; a failed fetch or a later log-on changes neither field |
| `Bot.SteamBot.PollFailure` | newBot.js:246-248 | the bot stops running; the item count is unchanged |
| `Bot.SteamBot.PollData` | newBot.js:251-253 | the bot runs; the item count is unchanged |
| `Bot.SteamBot.SendOfferToBot` | newBot.js:257-266 | one callback with accepted exactly when the status is "sent" or "pending", for an offer taking the counterpart's items with the match-code message; no confirmation; a throw escapes with no callback |
| `Bot.FailureCallback` | newBot.js:308 | the failure report is (message, false, "err", {state: 0}) |
| `Bot.SteamBot.SendOfferFromBot` | newBot.js:269-318 | confirmation is requested exactly when the status is "pending"; accepted exactly when "sent" or "pending", with the bot's id; a throw gives ("Failed to send offer", false, "err", {state: 0}), and so does a throwing callback, after its first call; the promise rejects exactly when the report after a failed send throws, and never settles exactly when the report after a throwing callback throws |
| `Bot.SteamBot.SentOfferChanged` | newBot.js:71-243 | the store ends exactly in the `Reconciled` state for the event, with this bot's name and id on new listings |
| `Bot.SteamBot.ReceiveItems` | newBot.js:103-214 | the receive loop appends exactly the receive listings and log entries and leaves the records alone |
| `Bot.SteamBot.SendItems` | newBot.js:215-237 | the send loop applies exactly the withdrawal soft deletes, appends the withdrawal log entries and leaves the records alone |
| `Manager.ActiveConfigs` | botManagers.js:20 | the configurations kept are exactly the active ones |
| `Manager.ActiveConfigsAppend` | botManagers.js:20 | the query keeps stored order: the active configurations of a concatenation are those of each part, in order |
| `Manager.ActiveConfigsSnoc` | botManagers.js:20 | one more stored configuration adds exactly itself at the end when active, and nothing otherwise |
| `Manager.FirstCanReceive` | botManagers.js:51-53 | the bot found is running with fewer than 1000 items and every earlier bot is not; None only when no bot qualifies |
| `Manager.FirstRunningNamed` | botManagers.js:73-75 | the bot found is running under the name and every earlier bot is not; None only when no bot qualifies |
| `Manager.BatchCallsCoverGroups` | botManagers.js:119-141 | when every dispatch reports at least once, a batch gives at least one callback per group, and none exactly when it is empty |
| `Manager.BotManager.constructor` | botManagers.js:9-12 | a new coordinator has no bots |
| `Manager.BotManager.LoadBotsForLogin` | botManagers.js:18-40 | appends one fresh, not-running, 0-item bot per active configuration, in configuration order, keeps the existing bots, and appends nothing when the query fails |
| `Manager.BotManager.GetAvailableBotForOffer` | botManagers.js:49-62 | returns the first bot in list order that is running with fewer than 1000 items, or None exactly when there is none |
| `Manager.BotManager.GetAvailableBotForSendOfferFromBot` | botManagers.js:72-77 | returns the first running bot with the given name, or None exactly when there is none |
| `Manager.BotManager.SendOfferToBotUsingAvailableBot` | botManagers.js:95-108 | with no eligible bot the outcome is ("Bot not available to send offer", false, "err", {state: 0}), raised when that call throws; otherwise it is delegated once to the selected eligible bot's `SendOfferToBot` |
| `Manager.BotManager.DispatchGroup` | botManagers.js:120-139 | a group is reported unavailable exactly when no running bot has its name, with "Bot not available to send offer for this item", raised when that call throws; otherwise it is delegated to that bot's `SendOfferFromBot` |
| `Manager.BotManager.SendOfferFromBotUsingAvailableBot` | botManagers.js:113-142 | the groups are dispatched in order, each outcome the group's own dispatch; every outcome but the last settles, and the batch stops early only at a dispatch that rejects or hangs, so an unavailable group whose report does not throw does not stop later ones; when every dispatch settles there is one outcome per group; nothing for an empty batch; at least one callback per outcome |

## Left out

- Platform session plumbing is not modelled: the Steam client, the community
  client and the trade-offer manager, `logOn`, re-log-on on session expiry,
  the client error handler, web-session cookie propagation, and the signing
  of mobile confirmations. A confirmation request is a flag on the send
  result, and its outcome is only logged in the source.
- The inventory HTTP request, the Mongo models and the price lookups are
  inputs: `InventoryReply`, the `Store` collections, `priceFeed` and
  `lowestPrices`.
- Sticker, unique-point and float extraction, and the listing fields built
  from them, are left out: `icon_url`, `type`, `tags`, `description`,
  `floatValue`, `link`, `stickers`, `uniquePoints`, `tradable` and `bargain`.
  Listings and log entries carry only the fields the rules above speak of.
  `isDeleted` is false on a new listing, standing for the stored default.
- Prices are integers, not floating-point numbers. An absent or non-numeric
  value is `None`.
- Async interleaving and the per-item try/catch of the receive loop are left
  out. Events and loop iterations run one after another, and no lookup or
  write fails part-way.
- The 5-second activation stagger, the TOTP code, passwords, and a bot
  constructor that throws inside the timer are left out.
- The unused `botWithItems` field of the coordinator is left out.
- `Manager.BotManager.GetAvailableBotForOffer`: a single pass that returns
  None when no bot qualifies. The source recurses without bound until the
  stack overflows; it then catches the error and returns null.
- A synchronous throw from the confirmation request of a "pending" send,
  which the source would also turn into the failure report, is not modelled:
  the confirmation call is platform code.
- `Bot.SteamBot.SendOfferToBot`: an exception thrown by the caller's
  callback inside the send callback is not modelled, because it escapes to
  the event loop.
- The source re-checks `isRunning` after selecting a bot. The model keeps
  that check, but with sequential events it never fails.
