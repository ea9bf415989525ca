/**
 * The in-memory stand-in for the database the reconciler writes to: trade
 * records (the `tradeItem` collection), marketplace listings
 * (`MarketplaceModel`) and the trade activity log, with the three update
 * operations the reconciler issues against them.
 */
module Persistence {
  import opened Values

  type AssetId = string

  /** Status strings written to trade records. */
  const Declined := "Declined"
  const Confirm := "Confirm"

  /** One requested item as stored on the trade record (`offer.itemsToReceive`). */
  datatype OfferItem = OfferItem(assetid: AssetId, sellPrice: Option<int>, commission: Option<int>)

  /**
   * A trade record created by the request layer before the offer was sent.
   * `requested` is the record's `offer.itemsToReceive`; `sellPrice` and
   * `commission` are the record-level values some flows fall back to.
   */
  datatype TradeRecord = TradeRecord(
    offerId: string,
    tradeType: string,
    userId: string,
    requested: seq<OfferItem>,
    sellPrice: Option<int>,
    commission: Option<int>,
    status: string,
    accepted: bool)

  /** A marketplace listing; `isDeleted` is the soft-delete flag. */
  datatype Listing = Listing(
    userId: string,
    ownerId: string,
    assetid: AssetId,
    classid: string,
    name: string,
    marketHashName: string,
    sold: bool,
    listing: bool,
    price: int,
    sellPrice: int,
    commission: int,
    botName: string,
    botId: string,
    isDeleted: bool)

  /** One trade activity log entry. */
  datatype LogEntry = LogEntry(
    kind: string,
    name: string,
    userId: string,
    assetid: AssetId,
    sellPrice: int,
    commission: int,
    marketHashName: string,
    price: int)

  /** The three stores as one value. */
  datatype Db = Db(records: seq<TradeRecord>, listings: seq<Listing>, log: seq<LogEntry>)

  /**
   * JavaScript's `Array.prototype.find` and a database `findOne` in natural
   * order: the index of the first element satisfying `p`, if any.
   */
  function FirstIndex<T>(s: seq<T>, p: T -> bool): (r: Option<nat>)
    ensures r.Some? ==> r.value < |s| && p(s[r.value])
    ensures r.Some? ==> forall j :: 0 <= j < r.value ==> !p(s[j])
    ensures r.None? ==> forall j :: 0 <= j < |s| ==> !p(s[j])
  {
    if |s| == 0 then None
    else if p(s[0]) then Some(0)
    else match FirstIndex(s[1..], p)
      case None => None
      case Some(k) => Some(k + 1)
  }

  /** `findOne({offerId: id})`: the first record carrying that offer id. */
  function FindRecord(records: seq<TradeRecord>, id: string): (r: Option<nat>)
    ensures r.Some? ==> r.value < |records| && records[r.value].offerId == id
    ensures r.Some? ==> forall j :: 0 <= j < r.value ==> records[j].offerId != id
    ensures r.None? <==> forall j :: 0 <= j < |records| ==> records[j].offerId != id
  {
    FirstIndex(records, (t: TradeRecord) => t.offerId == id)
  }

  /**
   * `updateMany({offerId: id}, ...)`: every record with the offer id gets the
   * new status, and `accepted` becomes true when `markAccepted` is set; every
   * other record, and every other field, stays as it was.
   */
  function MarkOffer(records: seq<TradeRecord>, id: string, status: string, markAccepted: bool): (r: seq<TradeRecord>)
    ensures |r| == |records|
    ensures forall i :: 0 <= i < |r| && records[i].offerId == id ==>
      r[i].status == status && (markAccepted ==> r[i].accepted) &&
      r[i] == records[i].(status := r[i].status, accepted := r[i].accepted)
    ensures forall i :: 0 <= i < |r| && !markAccepted ==> r[i].accepted == records[i].accepted
    ensures forall i :: 0 <= i < |r| && records[i].offerId != id ==> r[i] == records[i]
  {
    if |records| == 0 then []
    else
      var head := records[0];
      var head' := if head.offerId == id
        then head.(status := status, accepted := head.accepted || markAccepted)
        else head;
      [head'] + MarkOffer(records[1..], id, status, markAccepted)
  }

  predicate ListingOf(l: Listing, userId: string, assetid: AssetId)
  {
    l.userId == userId && l.assetid == assetid
  }

  /** Some listing belongs to the user and carries the asset id. */
  predicate HasListing(listings: seq<Listing>, userId: string, assetid: AssetId)
  {
    exists i :: 0 <= i < |listings| && ListingOf(listings[i], userId, assetid)
  }

  /** Some listing of the user with the asset id is flagged deleted. */
  predicate HasDeletedListing(listings: seq<Listing>, userId: string, assetid: AssetId)
  {
    exists i :: 0 <= i < |listings| && ListingOf(listings[i], userId, assetid) && listings[i].isDeleted
  }

  /**
   * `updateOne({userId, assetid}, {isDeleted: true})`: only the first listing
   * matching the pair, in store order, is flagged deleted, even when it is
   * already flagged; later matches stay as they are and nothing is removed.
   */
  function SoftDelete(listings: seq<Listing>, userId: string, assetid: AssetId): (r: seq<Listing>)
    ensures |r| == |listings|
    ensures forall i :: 0 <= i < |r| ==> r[i] == listings[i] || (ListingOf(listings[i], userId, assetid) && r[i] == listings[i].(isDeleted := true))
    ensures forall i :: 0 <= i < |r| ==>
      r[i].userId == listings[i].userId && r[i].assetid == listings[i].assetid && (listings[i].isDeleted ==> r[i].isDeleted)
    ensures forall i ::
      (0 <= i < |r| && ListingOf(listings[i], userId, assetid) &&
       forall j :: 0 <= j < i ==> !ListingOf(listings[j], userId, assetid)) ==>
        r[i] == listings[i].(isDeleted := true)
    ensures forall i, j :: 0 <= j < i < |r| && ListingOf(listings[j], userId, assetid) ==> r[i] == listings[i]
    ensures HasListing(listings, userId, assetid) ==> HasDeletedListing(r, userId, assetid)
  {
    match FirstIndex(listings, (l: Listing) => ListingOf(l, userId, assetid))
    case None => listings
    case Some(k) => listings[k := listings[k].(isDeleted := true)]
  }

  /** The database, as the three collections the core reads and writes. */
  class Store {
    var records: seq<TradeRecord>
    var listings: seq<Listing>
    var log: seq<LogEntry>

    constructor (records: seq<TradeRecord>, listings: seq<Listing>, log: seq<LogEntry>)
      ensures this.records == records && this.listings == listings && this.log == log
    {
      this.records := records;
      this.listings := listings;
      this.log := log;
    }

    /** The three collections as one value. */
    function Snapshot(): Db
      reads this
    {
      Db(records, listings, log)
    }
  }
}
