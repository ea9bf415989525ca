/**
 * The offer reconciler as a pure specification: what one `sentOfferChanged`
 * event does to the trade records, the marketplace listings and the activity
 * log. `SteamBot.SentOfferChanged` (bot.dfy) performs these writes step by
 * step and is proved to end in exactly the state `Reconciled` describes; the
 * lemmas below state the settlement rules in terms of that function.
 */
module Reconciler {
  import opened Values
  import opened Persistence

  /** Offer state numbers of the trade-offer library's ETradeOfferState. */
  const AcceptedState := 3
  const ExpiredState := 5
  const CanceledState := 6
  const DeclinedState := 7
  const CanceledBySecondFactorState := 10

  /** Trade types the settlement branches on. */
  const Deposit := "Deposit"
  const SendGoFestInventory := "sendGoFestInventory"
  const Withdraw := "Withdraw"

  /** Activity log entry kinds. */
  const SellOnMarketplace := "sellOnMarketplace"
  const SteamToGoFestInventory := "SteamToGoFestInventory"
  const GoFestToSteamInventory := "GoFestToSteamInventory"

  /** Placeholder sell terms of a deposited item whose request carries none. */
  const DefaultSellPrice := 6666
  const DefaultCommission := 1

  /** The states folded into "Declined". */
  predicate IsDeclineState(state: int)
  {
    state == ExpiredState || state == CanceledState || state == DeclinedState || state == CanceledBySecondFactorState
  }

  /** A `sentOfferChanged` event: offer id, new state and the two item lists. */
  datatype OfferEvent = OfferEvent(id: string, state: int, itemsToReceive: seq<AssetId>, itemsToGive: seq<AssetId>)

  /** An item as reported by the exchange details after the trade went through. */
  datatype ExchangeItem = ExchangeItem(
    assetid: AssetId,
    newAssetid: AssetId,
    classid: string,
    name: string,
    marketHashName: string)

  /** The answer of `getExchangeDetails`: an error, or the items received and sent. */
  datatype ExchangeReply =
    | ExchangeFailed
    | Exchange(received: seq<ExchangeItem>, sent: seq<ExchangeItem>)

  /** One entry of the stored price feed for an item name. */
  datatype PriceEntry = PriceEntry(unstable: bool, max: Option<int>, avg: Option<int>)

  /**
   * What settlement reads besides the stores: the name and id of the bot that
   * owns the offer, the stored price feed by market hash name, and the live
   * lowest market price by market hash name.
   */
  datatype Context = Context(
    botName: string,
    botId: string,
    priceFeed: map<string, seq<PriceEntry>>,
    lowestPrices: map<string, int>)

  /**
   * The reference price of a received item: from the first feed entry, its
   * maximum when the entry is marked unstable and its average otherwise; 0
   * when there is no entry or the chosen figure is missing.
   */
  function ReferencePrice(entries: seq<PriceEntry>): (r: int)
    ensures |entries| == 0 ==> r == 0
    ensures |entries| > 0 && entries[0].unstable ==> r == OrElse(entries[0].max, 0)
    ensures |entries| > 0 && !entries[0].unstable ==> r == OrElse(entries[0].avg, 0)
  {
    if |entries| == 0 then 0
    else OrElse(if entries[0].unstable then entries[0].max else entries[0].avg, 0)
  }

  function ItemPrice(ctx: Context, el: ExchangeItem): int
  {
    ReferencePrice(if el.marketHashName in ctx.priceFeed then ctx.priceFeed[el.marketHashName] else [])
  }

  /** The first requested item of the trade record with the same (pre-trade) asset id, as `find` returns it. */
  function RequestedItem(trade: TradeRecord, el: ExchangeItem): (r: Option<OfferItem>)
    ensures r.Some? ==> r.value.assetid == el.assetid
    ensures r.Some? ==>
      exists k :: 0 <= k < |trade.requested| && trade.requested[k] == r.value &&
        forall j :: 0 <= j < k ==> trade.requested[j].assetid != el.assetid
    ensures r.None? ==> forall o :: o in trade.requested ==> o.assetid != el.assetid
  {
    match FirstIndex(trade.requested, (o: OfferItem) => o.assetid == el.assetid)
    case None => None
    case Some(k) => Some(trade.requested[k])
  }

  function RequestedSellPrice(o: Option<OfferItem>): Option<int>
  {
    if o.Some? then o.value.sellPrice else None
  }

  function RequestedCommission(o: Option<OfferItem>): Option<int>
  {
    if o.Some? then o.value.commission else None
  }

  /** A new listing for a received item, owned by the trade's user. */
  function NewListing(ctx: Context, trade: TradeRecord, el: ExchangeItem, listed: bool, sellPrice: int, commission: int): Listing
  {
    Listing(
      userId := trade.userId,
      ownerId := trade.userId,
      assetid := el.newAssetid,
      classid := el.classid,
      name := el.name,
      marketHashName := el.marketHashName,
      sold := false,
      listing := listed,
      price := ItemPrice(ctx, el),
      sellPrice := sellPrice,
      commission := commission,
      botName := ctx.botName,
      botId := ctx.botId,
      isDeleted := false)
  }

  /** The listing one received item yields, by trade type: none for other types. */
  function ListingsFor(ctx: Context, trade: TradeRecord, el: ExchangeItem): seq<Listing>
  {
    var o := RequestedItem(trade, el);
    if trade.tradeType == Deposit then
      [NewListing(ctx, trade, el, true,
         OrElse(RequestedSellPrice(o), DefaultSellPrice),
         OrElse(RequestedCommission(o), DefaultCommission))]
    else if trade.tradeType == SendGoFestInventory then
      [NewListing(ctx, trade, el, false,
         OrElse(RequestedSellPrice(o), OrElse(trade.sellPrice, 0)),
         OrElse(RequestedCommission(o), OrElse(trade.commission, 0)))]
    else []
  }

  /** A log entry for a received item; its sell terms default to 0. */
  function ReceiveLog(ctx: Context, trade: TradeRecord, el: ExchangeItem, kind: string): LogEntry
  {
    var o := RequestedItem(trade, el);
    LogEntry(
      kind := kind,
      name := el.name,
      userId := trade.userId,
      assetid := el.assetid,
      sellPrice := OrElse(RequestedSellPrice(o), 0),
      commission := OrElse(RequestedCommission(o), 0),
      marketHashName := el.marketHashName,
      price := ItemPrice(ctx, el))
  }

  /** The log entry one received item yields, by trade type: none for other types. */
  function LogsFor(ctx: Context, trade: TradeRecord, el: ExchangeItem): seq<LogEntry>
  {
    if trade.tradeType == Deposit then [ReceiveLog(ctx, trade, el, SellOnMarketplace)]
    else if trade.tradeType == SendGoFestInventory then [ReceiveLog(ctx, trade, el, SteamToGoFestInventory)]
    else []
  }

  /** Listings appended by the receive loop, item by item. */
  function ReceiveListings(ctx: Context, trade: TradeRecord, items: seq<ExchangeItem>): seq<Listing>
  {
    if |items| == 0 then []
    else ReceiveListings(ctx, trade, items[..|items| - 1]) + ListingsFor(ctx, trade, items[|items| - 1])
  }

  /** Log entries appended by the receive loop, item by item. */
  function ReceiveLogs(ctx: Context, trade: TradeRecord, items: seq<ExchangeItem>): seq<LogEntry>
  {
    if |items| == 0 then []
    else ReceiveLogs(ctx, trade, items[..|items| - 1]) + LogsFor(ctx, trade, items[|items| - 1])
  }

  /** The effect of one sent item on the listings: a soft delete for a withdrawal. */
  function WithdrawStep(listings: seq<Listing>, trade: TradeRecord, el: ExchangeItem): seq<Listing>
  {
    if trade.tradeType == Withdraw then SoftDelete(listings, trade.userId, el.assetid) else listings
  }

  /** The log entry of a withdrawn item, priced at the live lowest price, with the record's sell terms. */
  function WithdrawLog(ctx: Context, trade: TradeRecord, el: ExchangeItem): LogEntry
  {
    LogEntry(
      kind := GoFestToSteamInventory,
      name := el.name,
      userId := trade.userId,
      assetid := el.assetid,
      sellPrice := OrElse(trade.sellPrice, 0),
      commission := OrElse(trade.commission, 0),
      marketHashName := el.marketHashName,
      price := OrElse(Lookup(ctx.lowestPrices, el.marketHashName), 0))
  }

  /** The log entry one sent item yields: one for a withdrawal, none otherwise. */
  function WithdrawLogsFor(ctx: Context, trade: TradeRecord, el: ExchangeItem): seq<LogEntry>
  {
    if trade.tradeType == Withdraw then [WithdrawLog(ctx, trade, el)] else []
  }

  /** The listings after the send loop, item by item. */
  function WithdrawnListings(listings: seq<Listing>, trade: TradeRecord, items: seq<ExchangeItem>): seq<Listing>
  {
    if |items| == 0 then listings
    else WithdrawStep(WithdrawnListings(listings, trade, items[..|items| - 1]), trade, items[|items| - 1])
  }

  /** Log entries appended by the send loop, item by item. */
  function WithdrawLogs(ctx: Context, trade: TradeRecord, items: seq<ExchangeItem>): seq<LogEntry>
  {
    if |items| == 0 then []
    else WithdrawLogs(ctx, trade, items[..|items| - 1]) + WithdrawLogsFor(ctx, trade, items[|items| - 1])
  }

  /** The receive branch runs for received items only. */
  predicate IsReceive(received: seq<ExchangeItem>, sent: seq<ExchangeItem>)
  {
    |received| > 0 && |sent| == 0
  }

  /** The send branch runs for sent items only. */
  predicate IsSend(received: seq<ExchangeItem>, sent: seq<ExchangeItem>)
  {
    |sent| > 0 && |received| == 0
  }

  /** The listings `after` keep every listing of `before`, its owner and asset id, and every deleted flag. */
  predicate KeepsListings(before: seq<Listing>, after: seq<Listing>)
  {
    |before| <= |after| &&
    forall i :: 0 <= i < |before| ==>
      after[i].userId == before[i].userId && after[i].assetid == before[i].assetid &&
      (before[i].isDeleted ==> after[i].isDeleted)
  }

  /**
   * Settlement of an accepted offer once its records are confirmed: it leaves
   * the records alone, only appends to the log, and never removes a listing,
   * re-keys it or clears its deleted flag.
   */
  function Settle(db: Db, ctx: Context, trade: TradeRecord, ex: ExchangeReply): (r: Db)
    ensures r.records == db.records
    ensures db.log <= r.log
    ensures KeepsListings(db.listings, r.listings)
  {
    match ex
    case ExchangeFailed => db
    case Exchange(received, sent) =>
      if IsReceive(received, sent) then
        db.(listings := db.listings + ReceiveListings(ctx, trade, received),
            log := db.log + ReceiveLogs(ctx, trade, received))
      else if IsSend(received, sent) then
        WithdrawKeepsKeys(db.listings, trade, sent);
        db.(listings := WithdrawnListings(db.listings, trade, sent),
            log := db.log + WithdrawLogs(ctx, trade, sent))
      else db
  }

  /**
   * The stores after one `sentOfferChanged` event. `ex` is what
   * `getExchangeDetails` answers if it is asked.
   */
  function Reconciled(db: Db, ctx: Context, ev: OfferEvent, ex: ExchangeReply): (r: Db)
    ensures |r.records| == |db.records|
    ensures forall i :: 0 <= i < |r.records| ==>
      r.records[i] == db.records[i].(status := r.records[i].status, accepted := r.records[i].accepted)
    ensures forall i :: 0 <= i < |r.records| && db.records[i].offerId != ev.id ==> r.records[i] == db.records[i]
    ensures db.log <= r.log
    ensures KeepsListings(db.listings, r.listings)
    ensures ev.state != AcceptedState ==> r.listings == db.listings && r.log == db.log
  {
    if IsDeclineState(ev.state) then
      if |ev.itemsToReceive| > 0 || |ev.itemsToGive| > 0 then
        db.(records := MarkOffer(db.records, ev.id, Declined, false))
      else db
    else if ev.state == AcceptedState then
      match FindRecord(db.records, ev.id)
      case None => db
      case Some(k) =>
        Settle(db.(records := MarkOffer(db.records, ev.id, Confirm, true)), ctx, db.records[k], ex)
    else db
  }

  // ---------------------------------------------------------------------------
  // Decline handling

  /**
   * A declined-class event for an offer with items marks every record of the
   * offer "Declined" (leaving `accepted` and the other fields alone), and
   * touches no other record, listing or log entry.
   */
  lemma DeclineMarksRecords(db: Db, ctx: Context, ev: OfferEvent, ex: ExchangeReply)
    requires IsDeclineState(ev.state)
    requires |ev.itemsToReceive| > 0 || |ev.itemsToGive| > 0
    ensures var r := Reconciled(db, ctx, ev, ex);
      |r.records| == |db.records| &&
      (forall i :: 0 <= i < |r.records| && db.records[i].offerId == ev.id ==>
         r.records[i] == db.records[i].(status := Declined)) &&
      (forall i :: 0 <= i < |r.records| && db.records[i].offerId != ev.id ==>
         r.records[i] == db.records[i]) &&
      r.listings == db.listings && r.log == db.log
  {
    var r := Reconciled(db, ctx, ev, ex);
    forall i | 0 <= i < |r.records| && db.records[i].offerId == ev.id
      ensures r.records[i] == db.records[i].(status := Declined)
    {
    }
  }

  /** A declined-class event for an offer with no items on either side changes nothing. */
  lemma DeclineWithoutItemsIsNoop(db: Db, ctx: Context, ev: OfferEvent, ex: ExchangeReply)
    requires IsDeclineState(ev.state)
    requires |ev.itemsToReceive| == 0 && |ev.itemsToGive| == 0
    ensures Reconciled(db, ctx, ev, ex) == db
  {
  }

  /** Any state other than Accepted and the four declined-class states changes nothing. */
  lemma OtherStatesAreNoop(db: Db, ctx: Context, ev: OfferEvent, ex: ExchangeReply)
    requires !IsDeclineState(ev.state) && ev.state != AcceptedState
    ensures Reconciled(db, ctx, ev, ex) == db
  {
  }

  // ---------------------------------------------------------------------------
  // Accept handling

  /** Accepted for an offer no trade record carries changes nothing. */
  lemma AcceptUnknownOfferIsNoop(db: Db, ctx: Context, ev: OfferEvent, ex: ExchangeReply)
    requires ev.state == AcceptedState
    requires forall i :: 0 <= i < |db.records| ==> db.records[i].offerId != ev.id
    ensures Reconciled(db, ctx, ev, ex) == db
  {
  }

  /**
   * Accepted for a known offer confirms every record of the offer (status
   * "Confirm", accepted true) and leaves the other records alone, whatever the
   * exchange details turn out to be.
   */
  lemma AcceptConfirmsRecords(db: Db, ctx: Context, ev: OfferEvent, ex: ExchangeReply)
    requires ev.state == AcceptedState
    requires exists i :: 0 <= i < |db.records| && db.records[i].offerId == ev.id
    ensures var r := Reconciled(db, ctx, ev, ex);
      |r.records| == |db.records| &&
      (forall i :: 0 <= i < |r.records| && db.records[i].offerId == ev.id ==>
         r.records[i] == db.records[i].(status := Confirm, accepted := true)) &&
      (forall i :: 0 <= i < |r.records| && db.records[i].offerId != ev.id ==>
         r.records[i] == db.records[i])
  {
    var k := FindRecord(db.records, ev.id);
    assert k.Some?;
    var r := Reconciled(db, ctx, ev, ex);
    var confirmed := MarkOffer(db.records, ev.id, Confirm, true);
    assert r.records == confirmed by {
      match ex
      case ExchangeFailed =>
      case Exchange(received, sent) =>
    }
    forall i | 0 <= i < |r.records| && db.records[i].offerId == ev.id
      ensures r.records[i] == db.records[i].(status := Confirm, accepted := true)
    {
    }
  }

  /** When the exchange details cannot be fetched, the records stay confirmed and nothing else is written. */
  lemma ExchangeFailureWritesNothing(db: Db, ctx: Context, ev: OfferEvent)
    requires ev.state == AcceptedState
    ensures var r := Reconciled(db, ctx, ev, ExchangeFailed);
      r.listings == db.listings && r.log == db.log &&
      (FindRecord(db.records, ev.id).Some? ==> r.records == MarkOffer(db.records, ev.id, Confirm, true))
  {
  }

  /**
   * Listings and log change only in the receive branch (received items only)
   * or the send branch (sent items only): with items on both sides, or on
   * neither, an accepted offer writes no listing and no log entry.
   */
  lemma MixedOrEmptyExchangeWritesNothing(db: Db, ctx: Context, ev: OfferEvent, received: seq<ExchangeItem>, sent: seq<ExchangeItem>)
    requires (|received| > 0 && |sent| > 0) || (|received| == 0 && |sent| == 0)
    ensures var r := Reconciled(db, ctx, ev, Exchange(received, sent));
      r.listings == db.listings && r.log == db.log
  {
  }

  /** The receive branch appends what the receive loop produces; the send branch soft-deletes and appends its log. */
  lemma SettlementBranches(db: Db, ctx: Context, ev: OfferEvent, received: seq<ExchangeItem>, sent: seq<ExchangeItem>)
    requires ev.state == AcceptedState
    requires FindRecord(db.records, ev.id).Some?
    ensures var trade := db.records[FindRecord(db.records, ev.id).value];
      var r := Reconciled(db, ctx, ev, Exchange(received, sent));
      (IsReceive(received, sent) ==>
         r.listings == db.listings + ReceiveListings(ctx, trade, received) &&
         r.log == db.log + ReceiveLogs(ctx, trade, received)) &&
      (IsSend(received, sent) ==>
         r.listings == WithdrawnListings(db.listings, trade, sent) &&
         r.log == db.log + WithdrawLogs(ctx, trade, sent))
  {
  }

  // ---------------------------------------------------------------------------
  // Receive branch

  /** What a deposited item's listing holds, stated field by field. */
  predicate IsDepositListing(ctx: Context, trade: TradeRecord, el: ExchangeItem, l: Listing)
  {
    var o := RequestedItem(trade, el);
    l.listing && !l.sold && !l.isDeleted &&
    l.assetid == el.newAssetid &&
    l.userId == trade.userId && l.ownerId == trade.userId &&
    l.sellPrice == (if RequestedSellPrice(o).Some? && RequestedSellPrice(o).value != 0 then RequestedSellPrice(o).value else 6666) &&
    l.commission == (if RequestedCommission(o).Some? && RequestedCommission(o).value != 0 then RequestedCommission(o).value else 1) &&
    l.price == ItemPrice(ctx, el) &&
    l.botName == ctx.botName && l.botId == ctx.botId
  }

  /** What the log entry of a received item holds: sell terms default to 0. */
  predicate IsReceiveLog(ctx: Context, trade: TradeRecord, el: ExchangeItem, kind: string, e: LogEntry)
  {
    var o := RequestedItem(trade, el);
    e.kind == kind &&
    e.userId == trade.userId && e.assetid == el.assetid && e.name == el.name &&
    e.sellPrice == (if RequestedSellPrice(o).Some? && RequestedSellPrice(o).value != 0 then RequestedSellPrice(o).value else 0) &&
    e.commission == (if RequestedCommission(o).Some? && RequestedCommission(o).value != 0 then RequestedCommission(o).value else 0) &&
    e.price == ItemPrice(ctx, el)
  }

  /**
   * For a deposit every received item yields exactly one listing, in item
   * order: listed, unsold, under the item's new asset id, owned by the
   * trade's user, with the requested sell terms or 6666 / 1.
   */
  lemma {:induction false} DepositListingPerItem(ctx: Context, trade: TradeRecord, items: seq<ExchangeItem>)
    requires trade.tradeType == Deposit
    ensures |ReceiveListings(ctx, trade, items)| == |items|
    ensures forall k :: 0 <= k < |items| ==> IsDepositListing(ctx, trade, items[k], ReceiveListings(ctx, trade, items)[k])
  {
    if |items| > 0 {
      var prefix := items[..|items| - 1];
      DepositListingPerItem(ctx, trade, prefix);
      forall k | 0 <= k < |items|
        ensures IsDepositListing(ctx, trade, items[k], ReceiveListings(ctx, trade, items)[k])
      {
        if k < |items| - 1 {
          assert items[k] == prefix[k];
        }
      }
    }
  }

  /** For a deposit every received item yields exactly one "sellOnMarketplace" log entry, in item order. */
  lemma {:induction false} DepositLogPerItem(ctx: Context, trade: TradeRecord, items: seq<ExchangeItem>)
    requires trade.tradeType == Deposit
    ensures |ReceiveLogs(ctx, trade, items)| == |items|
    ensures forall k :: 0 <= k < |items| ==> IsReceiveLog(ctx, trade, items[k], SellOnMarketplace, ReceiveLogs(ctx, trade, items)[k])
  {
    if |items| > 0 {
      var prefix := items[..|items| - 1];
      DepositLogPerItem(ctx, trade, prefix);
      forall k | 0 <= k < |items|
        ensures IsReceiveLog(ctx, trade, items[k], SellOnMarketplace, ReceiveLogs(ctx, trade, items)[k])
      {
        if k < |items| - 1 {
          assert items[k] == prefix[k];
        }
      }
    }
  }

  /**
   * For an inventory transfer ("sendGoFestInventory") every received item
   * yields one unlisted listing whose sell terms fall back from the requested
   * item to the record to 0, and one "SteamToGoFestInventory" log entry.
   */
  lemma {:induction false} InventoryTransferPerItem(ctx: Context, trade: TradeRecord, items: seq<ExchangeItem>)
    requires trade.tradeType == SendGoFestInventory
    ensures |ReceiveListings(ctx, trade, items)| == |items| == |ReceiveLogs(ctx, trade, items)|
    ensures forall k :: 0 <= k < |items| ==>
      var l := ReceiveListings(ctx, trade, items)[k];
      var o := RequestedItem(trade, items[k]);
      !l.listing && !l.sold && l.assetid == items[k].newAssetid &&
      l.userId == trade.userId && l.ownerId == trade.userId &&
      l.sellPrice == OrElse(RequestedSellPrice(o), OrElse(trade.sellPrice, 0)) &&
      l.commission == OrElse(RequestedCommission(o), OrElse(trade.commission, 0))
    ensures forall k :: 0 <= k < |items| ==>
      IsReceiveLog(ctx, trade, items[k], SteamToGoFestInventory, ReceiveLogs(ctx, trade, items)[k])
  {
    if |items| > 0 {
      var prefix := items[..|items| - 1];
      InventoryTransferPerItem(ctx, trade, prefix);
      forall k | 0 <= k < |items| - 1
        ensures items[k] == prefix[k]
      {
      }
    }
  }

  /** Any trade type other than the two receive flows writes nothing in the receive branch. */
  lemma {:induction false} OtherReceiveTypesWriteNothing(ctx: Context, trade: TradeRecord, items: seq<ExchangeItem>)
    requires trade.tradeType != Deposit && trade.tradeType != SendGoFestInventory
    ensures ReceiveListings(ctx, trade, items) == [] && ReceiveLogs(ctx, trade, items) == []
  {
    if |items| > 0 {
      OtherReceiveTypesWriteNothing(ctx, trade, items[..|items| - 1]);
    }
  }

  // ---------------------------------------------------------------------------
  // Send branch

  /** `after` is `before` with only the deleted flag set, and `before` is a listing of a sent item of the trade's user. */
  predicate FlaggedForSentItem(before: Listing, after: Listing, trade: TradeRecord, items: seq<ExchangeItem>)
  {
    after == before.(isDeleted := true) &&
    before.userId == trade.userId &&
    exists k :: 0 <= k < |items| && items[k].assetid == before.assetid
  }

  /**
   * For a withdrawal no listing is added or removed, and each listing either
   * stays as it was or only gains the deleted flag, and then it belongs to the
   * trade's user and carries the asset id of a sent item.
   */
  lemma {:induction false} WithdrawOnlyFlagsSentListings(listings: seq<Listing>, trade: TradeRecord, items: seq<ExchangeItem>)
    requires trade.tradeType == Withdraw
    ensures var r := WithdrawnListings(listings, trade, items);
      |r| == |listings| &&
      forall i :: 0 <= i < |r| ==> r[i] == listings[i] || FlaggedForSentItem(listings[i], r[i], trade, items)
  {
    if |items| > 0 {
      var n := |items| - 1;
      var prefix := items[..n];
      WithdrawOnlyFlagsSentListings(listings, trade, prefix);
      var mid := WithdrawnListings(listings, trade, prefix);
      var r := WithdrawnListings(listings, trade, items);
      assert r == WithdrawStep(mid, trade, items[n]);
      forall i | 0 <= i < |r|
        ensures r[i] == listings[i] || FlaggedForSentItem(listings[i], r[i], trade, items)
      {
        if r[i] != listings[i] {
          if mid[i] == listings[i] {
            assert items[n].assetid == listings[i].assetid;
          } else {
            assert FlaggedForSentItem(listings[i], mid[i], trade, prefix);
            var k :| 0 <= k < |prefix| && prefix[k].assetid == listings[i].assetid;
            assert items[k] == prefix[k];
          }
        }
      }
    }
  }

  /** The send loop keeps every listing's owner and asset id, and never clears a deleted flag. */
  lemma {:induction false} WithdrawKeepsKeys(listings: seq<Listing>, trade: TradeRecord, items: seq<ExchangeItem>)
    ensures var r := WithdrawnListings(listings, trade, items);
      |r| == |listings| &&
      forall i :: 0 <= i < |r| ==>
        r[i].userId == listings[i].userId && r[i].assetid == listings[i].assetid && (listings[i].isDeleted ==> r[i].isDeleted)
  {
    if |items| > 0 {
      WithdrawKeepsKeys(listings, trade, items[..|items| - 1]);
    }
  }

  /** A soft delete never takes away a deleted listing of any pair. */
  lemma SoftDeleteKeepsDeleted(listings: seq<Listing>, userId: string, assetid: AssetId, otherUser: string, otherAsset: AssetId)
    requires HasDeletedListing(listings, otherUser, otherAsset)
    ensures HasDeletedListing(SoftDelete(listings, userId, assetid), otherUser, otherAsset)
  {
    var r := SoftDelete(listings, userId, assetid);
    var i :| 0 <= i < |listings| && ListingOf(listings[i], otherUser, otherAsset) && listings[i].isDeleted;
    assert ListingOf(r[i], otherUser, otherAsset) && r[i].isDeleted;
  }

  /** The send loop keeps every (user, asset id) pair that has a listing. */
  lemma WithdrawKeepsListing(listings: seq<Listing>, trade: TradeRecord, items: seq<ExchangeItem>, userId: string, assetid: AssetId)
    requires HasListing(listings, userId, assetid)
    ensures HasListing(WithdrawnListings(listings, trade, items), userId, assetid)
  {
    WithdrawKeepsKeys(listings, trade, items);
    var r := WithdrawnListings(listings, trade, items);
    var i :| 0 <= i < |listings| && ListingOf(listings[i], userId, assetid);
    assert ListingOf(r[i], userId, assetid);
  }

  /** For a withdrawal, a sent item that had a listing of the trade's user ends with a listing of that pair flagged deleted. */
  lemma {:induction false} WithdrawFlagsSentItem(listings: seq<Listing>, trade: TradeRecord, items: seq<ExchangeItem>, k: nat)
    requires trade.tradeType == Withdraw
    requires k < |items|
    requires HasListing(listings, trade.userId, items[k].assetid)
    ensures HasDeletedListing(WithdrawnListings(listings, trade, items), trade.userId, items[k].assetid)
  {
    var n := |items| - 1;
    var prefix := items[..n];
    var mid := WithdrawnListings(listings, trade, prefix);
    assert WithdrawnListings(listings, trade, items) == WithdrawStep(mid, trade, items[n]);
    if k < n {
      assert prefix[k] == items[k];
      WithdrawFlagsSentItem(listings, trade, prefix, k);
      SoftDeleteKeepsDeleted(mid, trade.userId, items[n].assetid, trade.userId, items[k].assetid);
    } else {
      WithdrawKeepsListing(listings, trade, prefix, trade.userId, items[k].assetid);
    }
  }

  /**
   * For a withdrawal every sent item yields one "GoFestToSteamInventory" log
   * entry, in item order, priced at the live lowest price or 0 and carrying
   * the record's sell terms or 0.
   */
  lemma {:induction false} WithdrawLogPerItem(ctx: Context, trade: TradeRecord, items: seq<ExchangeItem>)
    requires trade.tradeType == Withdraw
    ensures |WithdrawLogs(ctx, trade, items)| == |items|
    ensures forall k :: 0 <= k < |items| ==>
      var e := WithdrawLogs(ctx, trade, items)[k];
      e.kind == GoFestToSteamInventory && e.userId == trade.userId && e.assetid == items[k].assetid &&
      e.price == (if items[k].marketHashName in ctx.lowestPrices then ctx.lowestPrices[items[k].marketHashName] else 0) &&
      e.sellPrice == OrElse(trade.sellPrice, 0) && e.commission == OrElse(trade.commission, 0)
  {
    if |items| > 0 {
      var prefix := items[..|items| - 1];
      WithdrawLogPerItem(ctx, trade, prefix);
      forall k | 0 <= k < |items| - 1
        ensures items[k] == prefix[k]
      {
      }
    }
  }

  /** Any trade type other than "Withdraw" writes nothing in the send branch. */
  lemma {:induction false} OtherSendTypesWriteNothing(ctx: Context, listings: seq<Listing>, trade: TradeRecord, items: seq<ExchangeItem>)
    requires trade.tradeType != Withdraw
    ensures WithdrawnListings(listings, trade, items) == listings && WithdrawLogs(ctx, trade, items) == []
  {
    if |items| > 0 {
      OtherSendTypesWriteNothing(ctx, listings, trade, items[..|items| - 1]);
    }
  }

  // ---------------------------------------------------------------------------
  // Replay

  /**
   * The reconciler does not gate settlement on the record's status: a second
   * delivery of the same Accepted event for a deposit appends every listing
   * and every log entry again.
   */
  lemma AcceptReplayAppendsAgain(db: Db, ctx: Context, ev: OfferEvent, received: seq<ExchangeItem>)
    requires ev.state == AcceptedState
    requires FindRecord(db.records, ev.id).Some?
    requires db.records[FindRecord(db.records, ev.id).value].tradeType == Deposit
    requires |received| > 0
    ensures var once := Reconciled(db, ctx, ev, Exchange(received, []));
      var twice := Reconciled(once, ctx, ev, Exchange(received, []));
      |twice.listings| == |db.listings| + 2 * |received| &&
      |twice.log| == |db.log| + 2 * |received|
  {
    var ex := Exchange(received, []);
    var k := FindRecord(db.records, ev.id).value;
    var trade := db.records[k];
    var once := Reconciled(db, ctx, ev, ex);
    DepositListingPerItem(ctx, trade, received);
    DepositLogPerItem(ctx, trade, received);
    assert |once.listings| == |db.listings| + |received|;
    assert |once.log| == |db.log| + |received|;
    var k' := FindRecord(once.records, ev.id);
    assert once.records[k].offerId == ev.id;
    assert k'.Some?;
    var trade' := once.records[k'.value];
    assert trade'.offerId == ev.id;
    assert trade'.tradeType == Deposit by {
      assert k'.value <= k;
      assert db.records[k'.value].offerId == ev.id;
      assert k'.value == k;
    }
    DepositListingPerItem(ctx, trade', received);
    DepositLogPerItem(ctx, trade', received);
  }
}
