/**
 * The relay engine: one object owning the known chats, the reply context,
 * the active orders per chat and the counters, driving the bot transport and
 * the site client. Each operation is one sequential step.
 */
module TelegramRelay {
  import opened Wrappers
  import opened Collections
  import opened Strings
  import opened Dto
  import opened Collaborators
  import opened RelayRules

  class TelegramService {
    /** The `BOT_TOKEN` setting. */
    const botToken: Option<string>
    const transport: BotTransport
    const site: SiteApi

    var knownChats: seq<string>
    var replyContext: map<string, string>
    var activeOrdersByChat: map<string, seq<string>>
    var stats: Counters
    /** Every call of the send primitive, with what it returned. */
    ghost var outbox: seq<Delivery>

    ghost function State(): RelayState
      reads this`knownChats, this`replyContext, this`activeOrdersByChat
    {
      RelayState(knownChats, replyContext, activeOrdersByChat)
    }

    ghost predicate Valid()
      reads this`knownChats, this`replyContext, this`activeOrdersByChat
    {
      State().Valid()
    }

    /** A `BOT_TOKEN` is set. */
    predicate BotConfigured() {
      Filled(botToken)
    }

    /** Every delivery since `sends` went out as a request since `requests` exactly when a token is set. */
    ghost predicate RequestsMatch(sends: seq<Delivery>, requests: seq<Exchange>)
      reads this`outbox, transport
    {
      Mirrored(botToken, sends, requests, outbox, transport.exchanges)
    }

    constructor (botToken: Option<string>, transport: BotTransport, site: SiteApi)
      ensures this.botToken == botToken && this.transport == transport && this.site == site
      ensures Valid()
      ensures State() == RelayState([], map[], map[]) && stats == ZeroCounters && outbox == []
    {
      this.botToken, this.transport, this.site := botToken, transport, site;
      knownChats, replyContext, activeOrdersByChat := [], map[], map[];
      stats := ZeroCounters;
      outbox := [];
    }

    /** Send primitive: without a token, a failure and no request; otherwise one request. */
    method SendTextDetailed(chatId: string, text: string) returns (result: SendResult)
      modifies this`outbox, transport
      ensures RequestsMatch(old(outbox), old(transport.exchanges))
      ensures result.WellFormed()
      ensures outbox == old(outbox) + [Delivery(chatId, text, result)]
      ensures !BotConfigured() ==> result == NoTokenResult && transport.exchanges == old(transport.exchanges)
      ensures BotConfigured() ==>
                && |transport.exchanges| == |old(transport.exchanges)| + 1
                && transport.exchanges[..|old(transport.exchanges)|] == old(transport.exchanges)
                && transport.exchanges[|old(transport.exchanges)|].request == Post(botToken.value, chatId, text)
                && result == ToSendResult(transport.exchanges[|old(transport.exchanges)|].response)
    {
      if !BotConfigured() {
        result := NoTokenResult;
      } else {
        var outcome := transport.SendMessage(botToken.value, chatId, text);
        result := ToSendResult(outcome);
      }
      outbox := outbox + [Delivery(chatId, text, result)];
    }

    /** Send primitive for replies whose outcome only matters as a flag. */
    method SendText(chatId: string, text: string) returns (ok: bool)
      modifies this`outbox, transport
      ensures RequestsMatch(old(outbox), old(transport.exchanges))
      ensures |outbox| == |old(outbox)| + 1
      ensures outbox == old(outbox) + [Delivery(chatId, text, outbox[|outbox| - 1].result)]
      ensures ok == outbox[|outbox| - 1].result.ok
    {
      var result := SendTextDetailed(chatId, text);
      ok := result.ok;
    }

    /** The disconnect signal: the site is told only for the blocked status. */
    method HandlePotentialDisconnect(chatId: string, errorCode: Option<int>)
      modifies site
      ensures site.disconnects == old(site.disconnects) + (if SignalsDisconnect(errorCode) then [chatId] else [])
      ensures site.lookups == old(site.lookups) && site.forwards == old(site.forwards)
    {
      if errorCode == Some(BlockedStatus) {
        site.MarkUserDisconnected(chatId);
      }
    }

    /** The linking flow: at most one lookup, exactly one reply. */
    method HandleStartCommand(m: Message)
      modifies this`outbox, transport, site
      ensures RequestsMatch(old(outbox), old(transport.exchanges))
      ensures site.disconnects == old(site.disconnects)
      ensures LinkingDone(m, stats, old(outbox), old(site.lookups), old(site.forwards))
    {
      var chatId := ChatKey(m);
      var step := LinkStepOf(m.text.GetOr(""));
      var reply;
      match step {
        case AskToLink =>
          reply := AskToLinkText;
        case RejectFormat =>
          reply := BadLinkFormatText;
        case ResolveToken(token) =>
          var answer := site.ResolveLinkToken(token);
          reply := LinkAnswerText(answer);
      }
      var _ := SendText(chatId, reply);
    }

    /** An inbound text: counted, correlated with an order and forwarded; an apology if the site refused it. */
    method ForwardInboundText(chatId: string, text: string, replyTo: Option<int>)
      modifies this`stats, this`outbox, transport, site
      ensures RequestsMatch(old(outbox), old(transport.exchanges))
      ensures site.disconnects == old(site.disconnects)
      ensures TextForwarded(chatId, text, ResolveOrderId(replyContext, activeOrdersByChat, chatId, replyTo),
                            old(stats), old(outbox), old(transport.exchanges), old(site.lookups), old(site.forwards))
    {
      stats := stats.(incomingTextMessages := stats.incomingTextMessages + 1);
      var orderId := ResolveOrderId(replyContext, activeOrdersByChat, chatId, replyTo);
      var forwarded := site.ForwardMessageFromTelegram(ForwardPayload(chatId, text, orderId));
      if forwarded {
        stats := stats.(relayedToSite := stats.relayedToSite + 1);
      } else {
        stats := stats.(relayFailed := stats.relayFailed + 1);
        var _ := SendText(chatId, RelayApologyText);
      }
    }

    /** One inbound webhook update: always counted; a message, new or edited, is handled. */
    method HandleUpdate(u: Update)
      requires Valid()
      modifies this, transport, site
      ensures RequestsMatch(old(outbox), old(transport.exchanges))
      ensures Valid()
      ensures stats.webhookUpdates == old(stats.webhookUpdates) + 1
      ensures site.disconnects == old(site.disconnects)
      ensures IncomingMessage(u).None? ==>
                && State() == old(State()) && stats == old(stats).(webhookUpdates := old(stats.webhookUpdates) + 1)
                && outbox == old(outbox) && transport.exchanges == old(transport.exchanges)
                && site.lookups == old(site.lookups) && site.forwards == old(site.forwards)
      ensures IncomingMessage(u).Some? ==>
                HandledMessage(IncomingMessage(u).value, old(State()), old(stats).(webhookUpdates := old(stats.webhookUpdates) + 1),
                               old(outbox), old(transport.exchanges), old(site.lookups), old(site.forwards))
    {
      stats := stats.(webhookUpdates := stats.webhookUpdates + 1);
      var incoming := IncomingMessage(u);
      if incoming.Some? {
        HandleMessage(incoming.value);
      }
    }

    /**
     * What handling message `m` did, against the state, counters and logs
     * before it: the chat is registered, and then one of four routes ran.
     */
    ghost predicate HandledMessage(m: Message, state: RelayState, counters: Counters, sends: seq<Delivery>,
                                   requests: seq<Exchange>, lookups: seq<Lookup>, forwards: seq<Forward>)
      reads this, transport, site
    {
      var chatId := ChatKey(m);
      && State() == state.RegisterChat(chatId)
      && match RouteOf(m)
         case LinkingFlow(_) => LinkingDone(m, counters, sends, lookups, forwards)
         case RelayText(text) =>
           var orderId := ResolveOrderId(state.replyContext, state.activeOrdersByChat, chatId, ReplyToId(m));
           TextForwarded(chatId, text, orderId, counters, sends, requests, lookups, forwards)
         case UnsupportedMedia =>
           && stats == counters.(incomingUnsupportedMessages := counters.incomingUnsupportedMessages + 1)
           && site.lookups == lookups && site.forwards == forwards
           && AppendsOne(sends, outbox, chatId, UnsupportedText)
         case Ignored =>
           && stats == counters && outbox == sends && transport.exchanges == requests
           && site.lookups == lookups && site.forwards == forwards
    }

    /**
     * The linking flow ran for `m`: no counter changed, nothing was forwarded,
     * at most one token lookup happened and exactly one reply was sent.
     */
    ghost predicate LinkingDone(m: Message, counters: Counters, sends: seq<Delivery>,
                                lookups: seq<Lookup>, forwards: seq<Forward>)
      reads this, site
    {
      var step := LinkStepOf(m.text.GetOr(""));
      && stats == counters && site.forwards == forwards
      && (!step.ResolveToken? ==> site.lookups == lookups)
      && (step.ResolveToken? ==> |site.lookups| == |lookups| + 1
                                 && site.lookups == lookups + [Lookup(step.token, site.lookups[|lookups|].answer)]
                                 && (!site.Configured() ==> site.lookups[|lookups|].answer.None?))
      && AppendsOne(sends, outbox, ChatKey(m),
                    LinkingReply(step, if step.ResolveToken? then site.lookups[|lookups|].answer else None))
    }

    /**
     * An inbound text was counted and forwarded once with `orderId`; the
     * outcome was counted, and a refusal got one apology.
     */
    ghost predicate TextForwarded(chatId: string, text: string, orderId: Option<string>, counters: Counters,
                                  sends: seq<Delivery>, requests: seq<Exchange>, lookups: seq<Lookup>, forwards: seq<Forward>)
      reads this, transport, site
    {
      && site.lookups == lookups
      && |site.forwards| == |forwards| + 1
      && site.forwards == forwards + [Forward(ForwardPayload(chatId, text, orderId), site.forwards[|forwards|].accepted)]
      && var accepted := site.forwards[|forwards|].accepted;
      && stats == counters.(incomingTextMessages := counters.incomingTextMessages + 1,
                            relayedToSite := counters.relayedToSite + (if accepted then 1 else 0),
                            relayFailed := counters.relayFailed + (if accepted then 0 else 1))
      && (accepted ==> outbox == sends && transport.exchanges == requests)
      && (!accepted ==> AppendsOne(sends, outbox, chatId, RelayApologyText))
    }

    /** The part of update handling that runs once there is a message. */
    method HandleMessage(m: Message)
      requires Valid()
      modifies this, transport, site
      ensures RequestsMatch(old(outbox), old(transport.exchanges))
      ensures Valid()
      ensures site.disconnects == old(site.disconnects)
      ensures HandledMessage(m, old(State()), old(stats), old(outbox), old(transport.exchanges),
                             old(site.lookups), old(site.forwards))
    {
      var chatId := ChatKey(m);
      knownChats := SetAdd(knownChats, chatId);
      assert State() == old(State()).RegisterChat(chatId);

      match RouteOf(m) {
        case LinkingFlow(_) =>
          HandleStartCommand(m);
        case RelayText(text) =>
          ForwardInboundText(chatId, text, ReplyToId(m));
        case UnsupportedMedia =>
          stats := stats.(incomingUnsupportedMessages := stats.incomingUnsupportedMessages + 1);
          var _ := SendText(chatId, UnsupportedText);
        case Ignored =>
      }
    }

    /** A site notification to one chat. */
    method SendNotify(dto: NotifyDto) returns (ok: bool)
      requires Valid()
      modifies this, transport, site
      ensures RequestsMatch(old(outbox), old(transport.exchanges))
      ensures !BotConfigured() ==> !ok
      ensures Valid()
      ensures State() == old(State()).RegisterChat(dto.chatId)
      ensures AppendsOne(old(outbox), outbox, dto.chatId, NotifyText(dto))
      ensures ok == outbox[|outbox| - 1].result.ok
      ensures stats == old(stats).(notifySent := old(stats.notifySent) + (if ok then 1 else 0),
                                   notifyFailed := old(stats.notifyFailed) + (if ok then 0 else 1))
      ensures site.disconnects == old(site.disconnects)
                + (if !ok && SignalsDisconnect(outbox[|outbox| - 1].result.errorCode) then [dto.chatId] else [])
      ensures !BotConfigured() ==> site.disconnects == old(site.disconnects)
      ensures site.lookups == old(site.lookups) && site.forwards == old(site.forwards)
    {
      var text := NotifyText(dto);
      knownChats := SetAdd(knownChats, dto.chatId);
      assert State() == old(State()).RegisterChat(dto.chatId);
      var result := SendTextDetailed(dto.chatId, text);
      if result.ok {
        stats := stats.(notifySent := stats.notifySent + 1);
      } else {
        stats := stats.(notifyFailed := stats.notifyFailed + 1);
        HandlePotentialDisconnect(dto.chatId, result.errorCode);
      }
      ok := result.ok;
    }

    /** A site chat message about an order, relayed to one chat. */
    method SendChatRelay(dto: ChatMessageDto) returns (ok: bool)
      requires Valid()
      modifies this, transport, site
      ensures RequestsMatch(old(outbox), old(transport.exchanges))
      ensures !BotConfigured() ==> !ok
      ensures Valid()
      ensures AppendsOne(old(outbox), outbox, dto.chatId, ChatRelayText(dto))
      ensures ok == outbox[|outbox| - 1].result.ok
      ensures ok ==> State() == old(State()).RegisterChat(dto.chatId)
                                  .RecordRelay(dto.chatId, dto.orderId, outbox[|outbox| - 1].result.messageId)
      ensures !ok ==> State() == old(State()).RegisterChat(dto.chatId)
      ensures stats == old(stats).(chatSent := old(stats.chatSent) + (if ok then 1 else 0),
                                   chatFailed := old(stats.chatFailed) + (if ok then 0 else 1))
      ensures site.disconnects == old(site.disconnects)
                + (if !ok && SignalsDisconnect(outbox[|outbox| - 1].result.errorCode) then [dto.chatId] else [])
      ensures !BotConfigured() ==> site.disconnects == old(site.disconnects)
      ensures site.lookups == old(site.lookups) && site.forwards == old(site.forwards)
    {
      knownChats := SetAdd(knownChats, dto.chatId);
      ghost var registered := State();
      assert registered == old(State()).RegisterChat(dto.chatId);
      assert registered.Valid() && dto.chatId in registered.knownChats;
      var text := ChatRelayText(dto);
      var result := SendTextDetailed(dto.chatId, text);
      AfterChatRelay(dto, result);
      ok := result.ok;
    }

    /** The bookkeeping after a chat-relay send: count it, then remember the relay or signal a block. */
    method AfterChatRelay(dto: ChatMessageDto, result: SendResult)
      modifies this`stats, this`replyContext, this`activeOrdersByChat, site
      ensures result.ok ==> State() == old(State()).RecordRelay(dto.chatId, dto.orderId, result.messageId)
      ensures !result.ok ==> State() == old(State())
      ensures stats == old(stats).(chatSent := old(stats.chatSent) + (if result.ok then 1 else 0),
                                   chatFailed := old(stats.chatFailed) + (if result.ok then 0 else 1))
      ensures site.disconnects == old(site.disconnects)
                + (if !result.ok && SignalsDisconnect(result.errorCode) then [dto.chatId] else [])
      ensures site.lookups == old(site.lookups) && site.forwards == old(site.forwards)
    {
      if result.ok {
        stats := stats.(chatSent := stats.chatSent + 1);
        RememberRelay(dto.chatId, dto.orderId, result.messageId);
      } else {
        stats := stats.(chatFailed := stats.chatFailed + 1);
        HandlePotentialDisconnect(dto.chatId, result.errorCode);
      }
    }

    /** The reply key for a truthy message id, and the order among the chat's active orders. */
    method RememberRelay(chatId: string, orderId: string, messageId: Option<int>)
      modifies this`replyContext, this`activeOrdersByChat
      ensures State() == old(State()).RecordRelay(chatId, orderId, messageId)
    {
      if Truthy(messageId) {
        replyContext := replyContext[ReplyKey(chatId, messageId.value) := orderId];
      }
      var orders := if chatId in activeOrdersByChat then activeOrdersByChat[chatId] else [];
      activeOrdersByChat := activeOrdersByChat[chatId := SetAdd(orders, orderId)];
    }

    /** Tells one chat that its notifications were switched off; never signals the site. */
    method SendDisconnectNotice(chatId: string) returns (ok: bool)
      requires Valid()
      modifies this, transport
      ensures RequestsMatch(old(outbox), old(transport.exchanges))
      ensures !BotConfigured() ==> !ok
      ensures Valid() && State() == old(State())
      ensures AppendsOne(old(outbox), outbox, chatId, DisconnectNoticeText)
      ensures ok == outbox[|outbox| - 1].result.ok
      ensures stats == old(stats).(disconnectSent := old(stats.disconnectSent) + (if ok then 1 else 0),
                                   disconnectFailed := old(stats.disconnectFailed) + (if ok then 0 else 1))
    {
      var result := SendTextDetailed(chatId, DisconnectNoticeText);
      if result.ok {
        stats := stats.(disconnectSent := stats.disconnectSent + 1);
      } else {
        stats := stats.(disconnectFailed := stats.disconnectFailed + 1);
      }
      ok := result.ok;
    }

    /** One target of a broadcast: the send, its counter, and the disconnect signal on failure. */
    method BroadcastTo(chatId: string, text: string) returns (ok: bool)
      modifies this`outbox, this`stats, transport, site
      ensures |outbox| == |old(outbox)| + 1 && outbox[..|old(outbox)|] == old(outbox)
      ensures outbox[|old(outbox)|].chatId == chatId && outbox[|old(outbox)|].text == text
      ensures ok == outbox[|old(outbox)|].result.ok
      ensures stats == old(stats).AfterBroadcast(if ok then 1 else 0, if ok then 0 else 1)
      ensures site.disconnects == old(site.disconnects)
                + (if SignalsDisconnect(outbox[|old(outbox)|].result.errorCode) then [chatId] else [])
      ensures site.lookups == old(site.lookups) && site.forwards == old(site.forwards)
      ensures !BotConfigured() ==>
                && transport.exchanges == old(transport.exchanges) && outbox[|old(outbox)|].result == NoTokenResult
                && site.disconnects == old(site.disconnects)
      ensures BotConfigured() ==>
                && |transport.exchanges| == |old(transport.exchanges)| + 1
                && transport.exchanges[..|old(transport.exchanges)|] == old(transport.exchanges)
                && transport.exchanges[|old(transport.exchanges)|].request == Post(botToken.value, chatId, text)
                && outbox[|old(outbox)|].result == ToSendResult(transport.exchanges[|old(transport.exchanges)|].response)
    {
      var result := SendTextDetailed(chatId, text);
      if result.ok {
        stats := stats.(broadcastSent := stats.broadcastSent + 1);
      } else {
        stats := stats.(broadcastFailed := stats.broadcastFailed + 1);
        HandlePotentialDisconnect(chatId, result.errorCode);
      }
      ok := result.ok;
    }

    /** The same text to every target, one after the other, with the totals. */
    method SendBroadcast(dto: BroadcastDto) returns (r: BroadcastResult)
      requires Valid()
      modifies this, transport, site
      ensures RequestsMatch(old(outbox), old(transport.exchanges))
      ensures Valid() && State() == old(State())
      ensures old(outbox) <= outbox
      ensures var targets := BroadcastTargets(dto, old(knownChats));
              var sends := outbox[|old(outbox)|..];
              && |sends| == |targets|
              && (forall i :: 0 <= i < |targets| ==> sends[i].chatId == targets[i] && sends[i].text == dto.message)
              && r.total == |targets| && r.sent == CountSent(sends) && r.sent + r.failed == r.total
              && stats == old(stats).(broadcastSent := old(stats.broadcastSent) + r.sent,
                                      broadcastFailed := old(stats.broadcastFailed) + r.failed)
              && site.disconnects == old(site.disconnects) + BlockedChats(sends)
      ensures site.lookups == old(site.lookups) && site.forwards == old(site.forwards)
      ensures !BotConfigured() ==>
                transport.exchanges == old(transport.exchanges) && r.sent == 0 && site.disconnects == old(site.disconnects)
    {
      var targets := BroadcastTargets(dto, knownChats);
      var sent, failed := SendToEach(targets, dto.message);
      r := BroadcastResult(|targets|, sent, failed);
    }

    /**
     * A broadcast from log positions `start` and `requests0`, and from counters `stats0` and the
     * site logs given, has handled its first `i` targets with `sent` successes and `failed` failures.
     */
    ghost predicate Broadcasting(targets: seq<string>, text: string, i: nat, sent: nat, failed: nat,
                                 start: seq<Delivery>, requests0: seq<Exchange>, stats0: Counters,
                                 disconnects0: seq<string>, lookups0: seq<Lookup>, forwards0: seq<Forward>)
      reads this, transport, site
    {
      && start <= outbox && |outbox| == |start| + i
      && requests0 <= transport.exchanges
      && BroadcastProgress(botToken, targets, text, outbox[|start|..], transport.exchanges[|requests0|..],
                           sent, failed, disconnects0, site.disconnects)
      && stats.broadcastSent == stats0.broadcastSent + sent && stats.broadcastFailed == stats0.broadcastFailed + failed
      && stats.AgreesOutsideBroadcast(stats0)
      && site.lookups == lookups0 && site.forwards == forwards0
    }

    /** The send loop of a broadcast: each target in turn, counting successes and failures. */
    method SendToEach(targets: seq<string>, text: string) returns (sent: nat, failed: nat)
      modifies this`outbox, this`stats, transport, site
      ensures RequestsMatch(old(outbox), old(transport.exchanges))
      ensures old(outbox) <= outbox
      ensures var sends := outbox[|old(outbox)|..];
              && |sends| == |targets|
              && (forall i :: 0 <= i < |targets| ==> sends[i].chatId == targets[i] && sends[i].text == text)
              && sent == CountSent(sends) && sent + failed == |targets|
              && stats == old(stats).AfterBroadcast(sent, failed)
              && site.disconnects == old(site.disconnects) + BlockedChats(sends)
      ensures site.lookups == old(site.lookups) && site.forwards == old(site.forwards)
      ensures !BotConfigured() ==>
                transport.exchanges == old(transport.exchanges) && sent == 0 && site.disconnects == old(site.disconnects)
    {
      sent, failed := 0, 0;
      for i := 0 to |targets|
        invariant Broadcasting(targets, text, i, sent, failed, old(outbox), old(transport.exchanges), old(stats),
                               old(site.disconnects), old(site.lookups), old(site.forwards))
      {
        sent, failed := SendToNext(targets, text, i, sent, failed, old(outbox), old(transport.exchanges), old(stats),
                                   old(site.disconnects), old(site.lookups), old(site.forwards));
      }
      MirroredBroadcast(botToken, targets, text, old(outbox), old(transport.exchanges), outbox, transport.exchanges,
                        sent, failed, old(site.disconnects), site.disconnects);
      if !BotConfigured() {
        NoneSentWhenAllFail(outbox[|old(outbox)|..]);
        NoBlockedWithoutStatus(outbox[|old(outbox)|..]);
      }
    }

    /** One turn of the broadcast loop: the send to target `i` and its bookkeeping. */
    method SendToNext(targets: seq<string>, text: string, i: nat, sent: nat, failed: nat,
                      ghost start: seq<Delivery>, ghost requests0: seq<Exchange>, ghost stats0: Counters,
                      ghost disconnects0: seq<string>, ghost lookups0: seq<Lookup>, ghost forwards0: seq<Forward>)
      returns (sent': nat, failed': nat)
      requires i < |targets|
      requires Broadcasting(targets, text, i, sent, failed, start, requests0, stats0, disconnects0, lookups0, forwards0)
      modifies this`outbox, this`stats, transport, site
      ensures Broadcasting(targets, text, i + 1, sent', failed', start, requests0, stats0, disconnects0, lookups0, forwards0)
    {
      ghost var before, beforeRequests, beforeDisconnects := outbox, transport.exchanges, site.disconnects;
      var ok := BroadcastTo(targets[i], text);
      assert outbox[|start|..] == before[|start|..] + [outbox[|before|]];
      ghost var e := transport.exchanges[|beforeRequests|..];
      assert transport.exchanges[|requests0|..] == beforeRequests[|requests0|..] + e;
      BroadcastStep(botToken, targets, text, before[|start|..], beforeRequests[|requests0|..],
                    outbox[|before|], e, sent, failed, disconnects0, beforeDisconnects);
      if ok {
        sent', failed' := sent + 1, failed;
      } else {
        sent', failed' := sent, failed + 1;
      }
    }

    /**
     * The stats snapshot: every counter, the number of known chats and of
     * reply keys, and the range echoed back without filtering anything.
     */
    function GetStats(range: Option<StatsRange>): (s: StatsSnapshot)
      reads this
      requires Valid()
      ensures s.counters == stats
      ensures s.knownChats == |Elements(knownChats)|
      ensures s.replyContextSize == |replyContext|
      ensures range.Some? ==> s.from == range.value.from && s.to == range.value.to
      ensures range.None? ==> s.from.None? && s.to.None?
    {
      DistinctCardinality(knownChats);
      StatsSnapshot(stats, |knownChats|, |replyContext|,
                    if range.Some? then range.value.from else None,
                    if range.Some? then range.value.to else None)
    }
  }
}
