/**
 * One trading bot: its session state (running flag and item count, driven by
 * the log-on and poll events), its two offer-sending primitives, and its
 * handler for changes of offers it sent, which settles them in the store.
 */
module Bot {
  import opened Values
  import opened Persistence
  import opened Reconciler

  /** What a bot is constructed from. */
  datatype LogOnOptions = LogOnOptions(accountName: string, botId: string, steamId: string, botIdentitySecret: string)

  /**
   * The inventory request made on log-on: it threw, or it answered with a
   * `total_inventory_count` (None when the answer has no data or no count).
   */
  datatype InventoryReply = InventoryFetchFailed | Inventory(totalInventoryCount: Option<int>)

  /**
   * The offer object handed to a callback: the offer that was built and sent,
   * or the `{state: 0}` placeholder of the failure reports.
   */
  datatype OfferRef =
    | Offer(tradeUrl: string, message: string, theirItems: seq<AssetId>, myItems: seq<AssetId>)
    | StateZero

  /** One invocation of a dispatch callback: (error, accepted, status, offer[, botId]). */
  datatype Callback = Callback(err: Option<string>, accepted: bool, status: string, offer: OfferRef, botId: Option<string>)

  /**
   * How the platform and the caller's callback behave for one send: building
   * or sending the offer throws, or the send answers with an error and a
   * status. `callbackThrows` says whether the callback throws (or its promise
   * rejects) when handed the send's answer; `reportThrows` whether it throws
   * when handed a failure report.
   */
  datatype SendAttempt =
    | SendThrows(reportThrows: bool)
    | Replied(err: Option<string>, status: string, callbackThrows: bool, reportThrows: bool)

  /** How the promise of a send ends: it resolves, it rejects, or it never settles. */
  datatype Ending = Settled | Rejected | Hung

  /**
   * What a send primitive does: the callback invocations in order (a call
   * that threw included), whether a mobile confirmation was requested, and how
   * the caller's wait for it ends.
   */
  datatype SendResult = SendResult(calls: seq<Callback>, confirmationRequested: bool, ending: Ending)

  const SentStatus := "sent"
  const PendingStatus := "pending"
  const ErrStatus := "err"

  /** Failure messages of the send primitive and of the two dispatchers. */
  const SendFailedMessage := "Failed to send offer"
  const NoBotMessage := "Bot not available to send offer"
  const NoBotForItemMessage := "Bot not available to send offer for this item"

  /** A send counts as accepted when the platform says "sent" or "pending". */
  predicate AcceptedStatus(status: string)
  {
    status == SentStatus || status == PendingStatus
  }

  /** The structured failure report: (message, false, "err", {state: 0}). */
  function FailureCallback(message: string): (c: Callback)
    ensures c.err == Some(message) && !c.accepted && c.status == ErrStatus && c.offer == StateZero
  {
    Callback(Some(message), false, ErrStatus, StateZero, None)
  }

  function DepositMessage(matchCode: string): string
  {
    "sell your item on the GoFest platform  Match code " + matchCode
  }

  function WithdrawMessage(matchCode: string): string
  {
    "Your Withdraw Item from GoFest, Match code: " + matchCode
  }

  class SteamBot {
    const botName: string
    const botId: string
    const botSteamId: string
    const identitySecret: string
    /** Whether the session is up and the last poll succeeded. */
    var isRunning: bool
    /** Items held by the bot's account, as fetched at log-on. */
    var totalItemsOfBot: int
    /** The log-on handler is registered with `once`: it is armed until the first log-on event. */
    var awaitingLogOn: bool

    /** A new bot: not running, holding no items, waiting for its first log-on. */
    constructor (options: LogOnOptions)
      ensures botName == options.accountName && botId == options.botId
      ensures botSteamId == options.steamId && identitySecret == options.botIdentitySecret
      ensures !isRunning && totalItemsOfBot == 0 && awaitingLogOn
    {
      botName := options.accountName;
      botId := options.botId;
      botSteamId := options.steamId;
      identitySecret := options.botIdentitySecret;
      isRunning := false;
      totalItemsOfBot := 0;
      awaitingLogOn := true;
    }

    /**
     * The first log-on event: once the inventory answer is in, the item count
     * takes the fetched count when it is nonzero and keeps its value
     * otherwise, and the bot is running. A failed fetch aborts the handler.
     * Later log-on events find no handler and change nothing.
     */
    method LoggedOn(reply: InventoryReply)
      modifies this
      ensures !awaitingLogOn
      ensures old(awaitingLogOn) && reply.Inventory? ==>
        isRunning &&
        totalItemsOfBot == OrElse(reply.totalInventoryCount, old(totalItemsOfBot))
      ensures !old(awaitingLogOn) || reply.InventoryFetchFailed? ==>
        isRunning == old(isRunning) && totalItemsOfBot == old(totalItemsOfBot)
    {
      if awaitingLogOn {
        awaitingLogOn := false;
        match reply
        case InventoryFetchFailed =>
        case Inventory(count) =>
          if count.Some? && count.value != 0 {
            totalItemsOfBot := count.value;
          }
          isRunning := true;
      }
    }

    /** A failed poll stops the bot; the item count is untouched. */
    method PollFailure()
      modifies this`isRunning
      ensures !isRunning && totalItemsOfBot == old(totalItemsOfBot) && awaitingLogOn == old(awaitingLogOn)
    {
      isRunning := false;
    }

    /** Fresh poll data marks the bot running; the item count is untouched. */
    method PollData()
      modifies this`isRunning
      ensures isRunning && totalItemsOfBot == old(totalItemsOfBot) && awaitingLogOn == old(awaitingLogOn)
    {
      isRunning := true;
    }

    /**
     * Sends an offer asking the counterpart for `items`. The callback gets
     * accepted exactly when the status is "sent" or "pending"; no confirmation
     * is ever requested; an exception while building or sending the offer
     * escapes to the caller and no callback runs. The call never hangs.
     */
    function SendOfferToBot(matchCode: string, tradeUrl: string, items: seq<AssetId>, attempt: SendAttempt): (r: SendResult)
      ensures !r.confirmationRequested
      ensures r.ending == Rejected <==> attempt.SendThrows?
      ensures r.ending != Hung
      ensures attempt.SendThrows? ==> r.calls == []
      ensures attempt.Replied? ==>
        |r.calls| == 1 &&
        r.calls[0].err == attempt.err && r.calls[0].status == attempt.status &&
        (r.calls[0].accepted <==> attempt.status == "sent" || attempt.status == "pending") &&
        r.calls[0].offer == Offer(tradeUrl, DepositMessage(matchCode), items, []) &&
        r.calls[0].botId.None?
    {
      match attempt
      case SendThrows(_) => SendResult([], false, Rejected)
      case Replied(err, status, _, _) =>
        SendResult([Callback(err, AcceptedStatus(status), status, Offer(tradeUrl, DepositMessage(matchCode), items, []), None)], false, Settled)
    }

    /**
     * Sends an offer giving the bot's own `items`. A mobile confirmation is
     * requested exactly when the status is "pending". The callback gets
     * accepted exactly when the status is "sent" or "pending", with the bot's
     * id. An exception while building or sending becomes the failure report,
     * and so does an exception thrown by the callback itself, after its first
     * invocation. The failure report is not guarded: when it throws after a
     * failed build or send, the promise rejects; when it throws after the
     * callback threw, the promise never settles.
     */
    function SendOfferFromBot(matchCode: string, tradeUrl: string, items: seq<AssetId>, attempt: SendAttempt): (r: SendResult)
      ensures r.ending == Rejected <==> attempt.SendThrows? && attempt.reportThrows
      ensures r.ending == Hung <==> attempt.Replied? && attempt.callbackThrows && attempt.reportThrows
      ensures r.confirmationRequested <==> attempt.Replied? && attempt.status == "pending"
      ensures attempt.SendThrows? ==> r.calls == [FailureCallback("Failed to send offer")]
      ensures attempt.Replied? ==>
        |r.calls| == (if attempt.callbackThrows then 2 else 1) &&
        r.calls[0].err == attempt.err && r.calls[0].status == attempt.status &&
        (r.calls[0].accepted <==> attempt.status == "sent" || attempt.status == "pending") &&
        r.calls[0].offer == Offer(tradeUrl, WithdrawMessage(matchCode), [], items) &&
        r.calls[0].botId == Some(botId) &&
        (attempt.callbackThrows ==> r.calls[1] == FailureCallback("Failed to send offer"))
    {
      match attempt
      case SendThrows(reportThrows) =>
        SendResult([FailureCallback(SendFailedMessage)], false, if reportThrows then Rejected else Settled)
      case Replied(err, status, callbackThrows, reportThrows) =>
        var first := Callback(err, AcceptedStatus(status), status, Offer(tradeUrl, WithdrawMessage(matchCode), [], items), Some(botId));
        if callbackThrows then
          SendResult([first, FailureCallback(SendFailedMessage)], status == PendingStatus, if reportThrows then Hung else Settled)
        else
          SendResult([first], status == PendingStatus, Settled)
    }

    /**
     * The `sentOfferChanged` handler: settles the event in the store exactly
     * as `Reconciled` describes, with this bot's name and id on new listings.
     * `priceFeed` and `lowestPrices` stand for the two price lookups and `ex`
     * for the exchange details of an accepted offer.
     */
    method SentOfferChanged(store: Store, ev: OfferEvent, ex: ExchangeReply,
                            priceFeed: map<string, seq<PriceEntry>>, lowestPrices: map<string, int>)
      modifies store
      ensures store.Snapshot() == Reconciled(old(store.Snapshot()), Context(botName, botId, priceFeed, lowestPrices), ev, ex)
    {
      var ctx := Context(botName, botId, priceFeed, lowestPrices);
      if IsDeclineState(ev.state) {
        if |ev.itemsToReceive| > 0 || |ev.itemsToGive| > 0 {
          store.records := MarkOffer(store.records, ev.id, Declined, false);
        }
      } else if ev.state == AcceptedState {
        var found := FindRecord(store.records, ev.id);
        if found.Some? {
          var trade := store.records[found.value];
          store.records := MarkOffer(store.records, ev.id, Confirm, true);
          match ex
          case ExchangeFailed =>
          case Exchange(received, sent) =>
            if IsReceive(received, sent) {
              ReceiveItems(store, ctx, trade, received);
            } else if IsSend(received, sent) {
              SendItems(store, ctx, trade, sent);
            }
        }
      }
    }

    /** The receive loop: one listing and one log entry per received item, for the two receive flows. */
    static method ReceiveItems(store: Store, ctx: Context, trade: TradeRecord, items: seq<ExchangeItem>)
      modifies store
      ensures store.records == old(store.records)
      ensures store.listings == old(store.listings) + ReceiveListings(ctx, trade, items)
      ensures store.log == old(store.log) + ReceiveLogs(ctx, trade, items)
    {
      var i := 0;
      while i < |items|
        invariant 0 <= i <= |items|
        invariant store.records == old(store.records)
        invariant store.listings == old(store.listings) + ReceiveListings(ctx, trade, items[..i])
        invariant store.log == old(store.log) + ReceiveLogs(ctx, trade, items[..i])
      {
        var el := items[i];
        var requested := RequestedItem(trade, el);
        if trade.tradeType == Deposit {
          var sellPrice := OrElse(RequestedSellPrice(requested), DefaultSellPrice);
          var commission := OrElse(RequestedCommission(requested), DefaultCommission);
          store.listings := store.listings + [NewListing(ctx, trade, el, true, sellPrice, commission)];
          store.log := store.log + [ReceiveLog(ctx, trade, el, SellOnMarketplace)];
        } else if trade.tradeType == SendGoFestInventory {
          var sellPrice := OrElse(RequestedSellPrice(requested), OrElse(trade.sellPrice, 0));
          var commission := OrElse(RequestedCommission(requested), OrElse(trade.commission, 0));
          store.listings := store.listings + [NewListing(ctx, trade, el, false, sellPrice, commission)];
          store.log := store.log + [ReceiveLog(ctx, trade, el, SteamToGoFestInventory)];
        }
        assert items[..i + 1][..i] == items[..i];
        i := i + 1;
      }
      assert items[..|items|] == items;
    }

    /** The send loop: for a withdrawal, soft-delete the user's listing of each sent item and log it. */
    static method SendItems(store: Store, ctx: Context, trade: TradeRecord, items: seq<ExchangeItem>)
      modifies store
      ensures store.records == old(store.records)
      ensures store.listings == WithdrawnListings(old(store.listings), trade, items)
      ensures store.log == old(store.log) + WithdrawLogs(ctx, trade, items)
    {
      var i := 0;
      while i < |items|
        invariant 0 <= i <= |items|
        invariant store.records == old(store.records)
        invariant store.listings == WithdrawnListings(old(store.listings), trade, items[..i])
        invariant store.log == old(store.log) + WithdrawLogs(ctx, trade, items[..i])
      {
        var el := items[i];
        if trade.tradeType == Withdraw {
          store.listings := SoftDelete(store.listings, trade.userId, el.assetid);
          store.log := store.log + [WithdrawLog(ctx, trade, el)];
        }
        assert items[..i + 1][..i] == items[..i];
        i := i + 1;
      }
      assert items[..|items|] == items;
    }
  }
}
