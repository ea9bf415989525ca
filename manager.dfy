/**
 * The bot pool coordinator: it builds the list of bots from the active bot
 * configurations, picks a bot for each dispatch request by plain rules over
 * that list, and routes the request to it or reports that no bot is available.
 */
module Manager {
  import opened Values
  import opened Persistence
  import opened Bot

  /** A bot may take inbound items only while it holds fewer than this many. */
  const MaxBotItems := 1000

  /** A stored bot configuration. */
  datatype BotConfig = BotConfig(
    username: string,
    password: string,
    shareSecret: string,
    id: string,
    steamid: string,
    identitySecret: string,
    isActive: bool)

  /** The configurations the activation query `find({isActive: true})` returns, in stored order. */
  function ActiveConfigs(configs: seq<BotConfig>): (r: seq<BotConfig>)
    ensures |r| <= |configs|
    ensures forall c :: c in r ==> c in configs && c.isActive
    ensures forall c :: c in configs && c.isActive ==> c in r
  {
    if |configs| == 0 then []
    else if configs[0].isActive then [configs[0]] + ActiveConfigs(configs[1..])
    else ActiveConfigs(configs[1..])
  }

  /**
   * The query keeps stored order and one entry per active configuration:
   * filtering a concatenation filters each part and concatenates the results.
   */
  lemma {:induction false} ActiveConfigsAppend(a: seq<BotConfig>, b: seq<BotConfig>)
    ensures ActiveConfigs(a + b) == ActiveConfigs(a) + ActiveConfigs(b)
  {
    if |a| == 0 {
      assert a + b == b;
    } else {
      assert (a + b)[1..] == a[1..] + b;
      ActiveConfigsAppend(a[1..], b);
    }
  }

  /** One more stored configuration adds itself at the end when active, and nothing otherwise. */
  lemma ActiveConfigsSnoc(configs: seq<BotConfig>, c: BotConfig)
    ensures ActiveConfigs(configs + [c]) == ActiveConfigs(configs) + (if c.isActive then [c] else [])
  {
    ActiveConfigsAppend(configs, [c]);
    assert ActiveConfigs([c]) == (if c.isActive then [c] else []) by {
      assert [c][1..] == [];
    }
  }

  /** The options a configuration's bot is constructed with. */
  function OptionsFor(c: BotConfig): LogOnOptions
  {
    LogOnOptions(c.username, c.id, c.steamid, c.identitySecret)
  }

  /** `b` is a freshly constructed bot for configuration `c`. */
  predicate BuiltFrom(b: SteamBot, c: BotConfig)
    reads b
  {
    b.botName == c.username && b.botId == c.id && b.botSteamId == c.steamid &&
    b.identitySecret == c.identitySecret &&
    !b.isRunning && b.totalItemsOfBot == 0 && b.awaitingLogOn
  }

  /** Eligible for an inbound offer: running and holding fewer than 1000 items. */
  predicate CanReceive(b: SteamBot)
    reads b
  {
    b.isRunning && b.totalItemsOfBot < MaxBotItems
  }

  /** Eligible for an outbound offer of the named bot: running under that name. */
  predicate RunsAs(b: SteamBot, name: string)
    reads b
  {
    b.isRunning && b.botName == name
  }

  /** The first bot in list order that can receive, if any. */
  function FirstCanReceive(bots: seq<SteamBot>): (r: Option<nat>)
    reads bots
    ensures r.Some? ==> r.value < |bots| && CanReceive(bots[r.value])
    ensures r.Some? ==> forall j :: 0 <= j < r.value ==> !CanReceive(bots[j])
    ensures r.None? ==> forall j :: 0 <= j < |bots| ==> !CanReceive(bots[j])
  {
    if |bots| == 0 then None
    else if CanReceive(bots[0]) then Some(0)
    else match FirstCanReceive(bots[1..])
      case None => None
      case Some(k) => Some(k + 1)
  }

  /** The first bot in list order that runs under `name`, if any. */
  function FirstRunningNamed(bots: seq<SteamBot>, name: string): (r: Option<nat>)
    reads bots
    ensures r.Some? ==> r.value < |bots| && RunsAs(bots[r.value], name)
    ensures r.Some? ==> forall j :: 0 <= j < r.value ==> !RunsAs(bots[j], name)
    ensures r.None? ==> forall j :: 0 <= j < |bots| ==> !RunsAs(bots[j], name)
  {
    if |bots| == 0 then None
    else if RunsAs(bots[0], name) then Some(0)
    else match FirstRunningNamed(bots[1..], name)
      case None => None
      case Some(k) => Some(k + 1)
  }

  /** One group of an outbound batch: the items a named bot should give. */
  datatype ItemGroup = ItemGroup(botName: string, items: seq<AssetId>)

  /**
   * The outcome of one dispatch: delegated to the bot at an index, or reported
   * unavailable (`raised` when the callback threw on that report).
   */
  datatype Dispatch =
    | Delegated(bot: nat, result: SendResult)
    | Unavailable(report: Callback, raised: bool)

  /** The callback invocations of one dispatch. */
  function Calls(d: Dispatch): seq<Callback>
  {
    match d
    case Delegated(_, result) => result.calls
    case Unavailable(report, _) => [report]
  }

  /** How the dispatcher's wait on one dispatch ends; the report of an unavailable bot is not guarded. */
  function Ends(d: Dispatch): Ending
  {
    match d
    case Delegated(_, result) => result.ending
    case Unavailable(_, raised) => if raised then Rejected else Settled
  }

  /** The callback invocations of a batch, group after group. */
  function BatchCalls(outcomes: seq<Dispatch>): seq<Callback>
  {
    if |outcomes| == 0 then [] else BatchCalls(outcomes[..|outcomes| - 1]) + Calls(outcomes[|outcomes| - 1])
  }

  /**
   * When every dispatch reports at least once, a batch reports at least once
   * per group, in group order; an empty batch reports nothing.
   */
  lemma {:induction false} BatchCallsCoverGroups(outcomes: seq<Dispatch>)
    requires forall i :: 0 <= i < |outcomes| ==> |Calls(outcomes[i])| >= 1
    ensures |BatchCalls(outcomes)| >= |outcomes|
    ensures outcomes == [] <==> BatchCalls(outcomes) == []
  {
    if |outcomes| > 0 {
      BatchCallsCoverGroups(outcomes[..|outcomes| - 1]);
    }
  }

  class BotManager {
    /** The bots, in activation order. */
    var bots: seq<SteamBot>

    /** A new coordinator has no bots. */
    constructor ()
      ensures bots == []
    {
      bots := [];
    }

    /**
     * Activation: one new bot per active configuration, appended in
     * configuration order after the bots already there. When the
     * configuration query fails (`query` is None) nothing is appended.
     */
    method LoadBotsForLogin(query: Option<seq<BotConfig>>)
      modifies this
      ensures query.None? ==> bots == old(bots)
      ensures query.Some? ==>
        var active := ActiveConfigs(query.value);
        |bots| == |old(bots)| + |active| &&
        bots[..|old(bots)|] == old(bots) &&
        (forall j :: |old(bots)| <= j < |bots| ==> fresh(bots[j])) &&
        forall k :: 0 <= k < |active| ==> BuiltFrom(bots[|old(bots)| + k], active[k])
    {
      if query.None? {
        return;
      }
      var active := ActiveConfigs(query.value);
      var i := 0;
      while i < |active|
        invariant 0 <= i <= |active|
        invariant |bots| == |old(bots)| + i
        invariant bots[..|old(bots)|] == old(bots)
        invariant forall j :: |old(bots)| <= j < |bots| ==> fresh(bots[j])
        invariant forall k :: 0 <= k < i ==> BuiltFrom(bots[|old(bots)| + k], active[k])
      {
        var bot := new SteamBot(OptionsFor(active[i]));
        assert BuiltFrom(bot, active[i]);
        bots := bots + [bot];
        assert bots[|old(bots)| + i] == bot;
        i := i + 1;
      }
    }

    /**
     * The bot for an inbound offer: the first running bot holding fewer than
     * 1000 items, or None when no bot qualifies.
     */
    function GetAvailableBotForOffer(): (r: Option<nat>)
      reads this, bots
      ensures r.Some? ==> r.value < |bots| && CanReceive(bots[r.value])
      ensures r.Some? ==> forall j :: 0 <= j < r.value ==> !CanReceive(bots[j])
      ensures r.None? <==> forall j :: 0 <= j < |bots| ==> !CanReceive(bots[j])
    {
      FirstCanReceive(bots)
    }

    /** The bot for an outbound offer: the first running bot named `botName`, or None. */
    function GetAvailableBotForSendOfferFromBot(botName: string): (r: Option<nat>)
      reads this, bots
      ensures r.Some? ==> r.value < |bots| && RunsAs(bots[r.value], botName)
      ensures r.Some? ==> forall j :: 0 <= j < r.value ==> !RunsAs(bots[j], botName)
      ensures r.None? <==> forall j :: 0 <= j < |bots| ==> !RunsAs(bots[j], botName)
    {
      FirstRunningNamed(bots, botName)
    }

    /**
     * Inbound dispatch: with no eligible bot the callback gets
     * ("Bot not available to send offer", false, "err", {state: 0}), and a
     * throw from that call rejects the dispatcher's promise; otherwise the
     * selected bot sends the offer, once.
     */
    method SendOfferToBotUsingAvailableBot(matchCode: string, tradeUrl: string, items: seq<AssetId>, attempt: SendAttempt)
      returns (d: Dispatch)
      ensures GetAvailableBotForOffer().None? ==>
        d == Unavailable(FailureCallback("Bot not available to send offer"), attempt.reportThrows)
      ensures d.Delegated? ==>
        GetAvailableBotForOffer() == Some(d.bot) && CanReceive(bots[d.bot]) &&
        d.result == bots[d.bot].SendOfferToBot(matchCode, tradeUrl, items, attempt)
      ensures GetAvailableBotForOffer().Some? ==> d.Delegated?
    {
      var selected := GetAvailableBotForOffer();
      if selected.Some? && bots[selected.value].isRunning {
        var bot := bots[selected.value];
        d := Delegated(selected.value, bot.SendOfferToBot(matchCode, tradeUrl, items, attempt));
      } else {
        d := Unavailable(FailureCallback(NoBotMessage), attempt.reportThrows);
      }
    }

    /** What one group of an outbound batch produces. */
    function DispatchGroup(matchCode: string, tradeUrl: string, group: ItemGroup, attempt: SendAttempt): (d: Dispatch)
      reads this, bots
      ensures d.Unavailable? <==> GetAvailableBotForSendOfferFromBot(group.botName).None?
      ensures d.Unavailable? ==>
        d.report == FailureCallback("Bot not available to send offer for this item") && d.raised == attempt.reportThrows
      ensures d.Delegated? ==>
        d.bot < |bots| && RunsAs(bots[d.bot], group.botName) &&
        d.result == bots[d.bot].SendOfferFromBot(matchCode, tradeUrl, group.items, attempt)
    {
      match GetAvailableBotForSendOfferFromBot(group.botName)
      case None => Unavailable(FailureCallback(NoBotForItemMessage), attempt.reportThrows)
      case Some(k) => Delegated(k, bots[k].SendOfferFromBot(matchCode, tradeUrl, group.items, attempt))
    }

    /**
     * Outbound batch dispatch: the groups are handled in order, each with one
     * outcome, and a group without an available bot does not stop the ones
     * after it. The first dispatch whose wait does not settle normally ends the
     * batch: a rejection escapes the loop and a hung send is never returned
     * from. `attempts[i]` is how the send of group i goes.
     */
    method SendOfferFromBotUsingAvailableBot(matchCode: string, tradeUrl: string, groups: seq<ItemGroup>, attempts: seq<SendAttempt>)
      returns (outcomes: seq<Dispatch>)
      requires |attempts| == |groups|
      ensures |outcomes| <= |groups|
      ensures forall i :: 0 <= i < |outcomes| ==> outcomes[i] == DispatchGroup(matchCode, tradeUrl, groups[i], attempts[i])
      ensures forall i :: 0 <= i < |outcomes| - 1 ==> Ends(outcomes[i]) == Settled
      ensures |outcomes| < |groups| ==> 0 < |outcomes| && Ends(outcomes[|outcomes| - 1]) != Settled
      ensures (forall i :: 0 <= i < |groups| ==> Ends(DispatchGroup(matchCode, tradeUrl, groups[i], attempts[i])) == Settled) ==>
        |outcomes| == |groups|
      ensures groups == [] <==> outcomes == []
      ensures |BatchCalls(outcomes)| >= |outcomes|
    {
      outcomes := [];
      if |groups| > 0 {
        var i := 0;
        var stopped := false;
        while i < |groups| && !stopped
          invariant 0 <= i <= |groups|
          invariant |outcomes| == i
          invariant forall j :: 0 <= j < i ==> outcomes[j] == DispatchGroup(matchCode, tradeUrl, groups[j], attempts[j])
          invariant forall j :: 0 <= j < i - 1 ==> Ends(outcomes[j]) == Settled
          invariant !stopped ==> forall j :: 0 <= j < i ==> Ends(outcomes[j]) == Settled
          invariant stopped ==> 0 < i && Ends(outcomes[i - 1]) != Settled
        {
          var group := groups[i];
          var selected := GetAvailableBotForSendOfferFromBot(group.botName);
          var outcome;
          if selected.Some? && bots[selected.value].isRunning {
            var bot := bots[selected.value];
            outcome := Delegated(selected.value, bot.SendOfferFromBot(matchCode, tradeUrl, group.items, attempts[i]));
          } else {
            outcome := Unavailable(FailureCallback(NoBotForItemMessage), attempts[i].reportThrows);
          }
          outcomes := outcomes + [outcome];
          stopped := Ends(outcome) != Settled;
          i := i + 1;
        }
      }
      BatchCallsCoverGroups(outcomes);
    }
  }
}
