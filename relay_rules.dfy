/**
 * The rules of the Telegram relay engine that only read its state: routing
 * of an inbound message, the `/start` linking decision, reply keys and
 * order-id resolution, broadcast targets, the texts it sends, and the
 * relay state with the invariant every operation keeps.
 */
module RelayRules {
  import opened Wrappers
  import opened Collections
  import opened Strings
  import opened Dto
  import opened Collaborators

  // ---------------------------------------------------------------- constants

  const StartCommand := "/start"
  const LinkPrefix := "link_"
  const AllKnownSegment := "all_known"
  /** The bot API's status for a chat that blocked the bot. */
  const BlockedStatus := 403

  const AskToLinkText := "Ссылка на бота указана в настройках профиля на веб-сайте. Используйте \"Подключить Telegram\" там же"
  const BadLinkFormatText := "Неверный формат ссылки. Создайте новую ссылку на веб-сайте."
  const LinkExpiredText := "Ссылка недействительна или срок ее действия истек. Создайте новую ссылку в настройках профиля"
  const LinkedText := "Telegram успешно подключен. Настройте настройки уведомлений в своем профиле на веб-сайте"
  const RelayApologyText := "Сообщение получено, но не доставлено на сайт. Пожалуйста, повторите попытку позже"
  const UnsupportedText := "Файлы и голос не поддерживаются в bot relay. Пожалуйста, присылайте их через чат на сайте"
  const DisconnectNoticeText := "Уведомления в Telegram были отключены. Вы можете повторно подключиться в настройках веб-сайта"

  // ---------------------------------------------------------------- inbound routing

  /** `update.message ?? update.edited_message`: a new message wins over an edited one. */
  function IncomingMessage(u: Update): (m: Option<Message>)
    ensures u.message.Some? ==> m == u.message
    ensures u.message.None? ==> m == u.editedMessage
  {
    if u.message.Some? then u.message else u.editedMessage
  }

  /** `String(message.chat.id)`: the key under which the engine knows a chat. */
  function ChatKey(m: Message): string {
    IntToString(m.chat.id)
  }

  /** Two messages get the same chat key exactly when they come from the same chat. */
  lemma ChatKeyInjective(a: Message, b: Message)
    ensures ChatKey(a) == ChatKey(b) <==> a.chat.id == b.chat.id
  {
    IntToStringInjective(a.chat.id, b.chat.id);
  }

  /** A media attachment that the relay cannot forward. */
  predicate HasUnsupportedMedia(m: Message) {
    m.voice.Some? || m.photo.Some? || m.document.Some? || m.video.Some?
  }

  /** What the engine does with an inbound message. */
  datatype Route = LinkingFlow(command: string) | RelayText(text: string) | UnsupportedMedia | Ignored

  /**
   * A text starting with `/start` goes to the linking flow; any other
   * non-empty text is relayed; otherwise a media attachment gets a notice;
   * anything else is dropped.
   */
  function RouteOf(m: Message): (r: Route)
    ensures r.LinkingFlow? <==> m.text.Some? && StartCommand <= m.text.value
    ensures r.LinkingFlow? ==> r.command == m.text.value
    ensures r.RelayText? <==> m.text.Some? && m.text.value != "" && !(StartCommand <= m.text.value)
    ensures r.RelayText? ==> r.text == m.text.value
    ensures r.UnsupportedMedia? <==> (m.text.None? || m.text.value == "") && HasUnsupportedMedia(m)
  {
    if m.text.Some? && StartCommand <= m.text.value then LinkingFlow(m.text.value)
    else if m.text.Some? && m.text.value != "" then RelayText(m.text.value)
    else if HasUnsupportedMedia(m) then UnsupportedMedia
    else Ignored
  }

  // ---------------------------------------------------------------- linking flow

  /** `text.split(' ')[1]?.trim()`: the trimmed second space-separated token, if there is one. */
  function StartPayload(text: string): (p: Option<string>)
    ensures p.Some? <==> |Split(text, ' ')| >= 2
    ensures p.Some? ==> p.value == Trim(Split(text, ' ')[1])
  {
    var parts := Split(text, ' ');
    if |parts| >= 2 then Some(Trim(parts[1])) else None
  }

  /** The three outcomes of reading a `/start` payload. */
  datatype LinkStep = AskToLink | RejectFormat | ResolveToken(token: string)

  /**
   * An absent or empty payload asks the user to link from the website, one
   * without the `link_` marker is rejected, and otherwise the token after the
   * marker is looked up.
   */
  function LinkStepOf(command: string): (s: LinkStep)
    ensures s.AskToLink? <==> StartPayload(command).GetOr("") == ""
    ensures s.RejectFormat? <==> StartPayload(command).GetOr("") != "" && !(LinkPrefix <= StartPayload(command).value)
    ensures s.ResolveToken? ==> StartPayload(command) == Some(LinkPrefix + s.token)
  {
    var payload := StartPayload(command);
    if payload.None? || payload.value == "" then AskToLink
    else if !(LinkPrefix <= payload.value) then RejectFormat
    else
      ReplacePrefix(payload.value, LinkPrefix);
      assert payload.value == LinkPrefix + payload.value[|LinkPrefix|..];
      ResolveToken(ReplaceFirst(payload.value, LinkPrefix, ""))
  }

  /** The confirmation text for the answer of a token lookup. */
  function LinkAnswerText(answer: Option<LinkedUser>): string {
    if answer.None? then LinkExpiredText else LinkedText
  }

  /** The one reply of the linking flow, given the lookup's answer where a lookup happens. */
  function LinkingReply(step: LinkStep, answer: Option<LinkedUser>): string {
    match step
    case AskToLink => AskToLinkText
    case RejectFormat => BadLinkFormatText
    case ResolveToken(_) => LinkAnswerText(answer)
  }

  // ---------------------------------------------------------------- outbound texts

  /** The text of a notification: the explicit text, or the event name and the serialised data. */
  function NotifyText(dto: NotifyDto): (t: string)
    ensures dto.text.Some? ==> t == dto.text.value
    ensures dto.text.None? ==> "Event: " + dto.event <= t
    ensures dto.text.None? && dto.data.None? ==> t == "Event: " + dto.event
    ensures dto.text.None? && dto.data.Some? ==> t == "Event: " + dto.event + "\n" + dto.data.value
  {
    if dto.text.Some? then dto.text.value
    else "Event: " + dto.event + (if dto.data.Some? then "\n" + dto.data.value else "")
  }

  /** The text of a chat-relay message: order header, sender line, blank line, body. */
  function ChatRelayText(dto: ChatMessageDto): (t: string)
    ensures "Order #" + dto.orderId <= t
    ensures |t| >= |"Order #" + dto.orderId| + |dto.text|
    ensures t[|"Order #" + dto.orderId|..|t| - |dto.text|] == "\nFrom: " + dto.from + "\n\n"
    ensures t[|t| - |dto.text|..] == dto.text
  {
    var order := "Order #" + dto.orderId;
    var sender := "\nFrom: " + dto.from + "\n\n";
    var t := order + sender + dto.text;
    assert t[|order|..|t| - |dto.text|] == sender;
    assert t[|t| - |dto.text|..] == dto.text;
    t
  }

  // ---------------------------------------------------------------- sending

  /** How the engine reads the outcome of the HTTP call into a send result. */
  function ToSendResult(outcome: HttpOutcome): (r: SendResult)
    ensures r.WellFormed()
    ensures r.ok <==> outcome.Delivered?
    ensures outcome.Delivered? ==> r.messageId == outcome.messageId
    ensures !outcome.Delivered? ==> r.errorCode == (if outcome.HttpError? then outcome.status else None)
  {
    match outcome
    case Delivered(id) => SendResult(true, id, None)
    case HttpError(status) => SendResult(false, None, status)
    case OtherError => SendResult(false, None, None)
  }

  /** The result of a send attempted without a `BOT_TOKEN`: a failure with no error code. */
  const NoTokenResult := SendResult(false, None, None)

  /** `if (errorCode === 403)`: the failure says the chat blocked the bot. */
  predicate SignalsDisconnect(errorCode: Option<int>) {
    errorCode == Some(BlockedStatus)
  }

  /** One call of the engine's send primitive, with what it returned. */
  datatype Delivery = Delivery(chatId: string, text: string, result: SendResult)

  /** `after` is `before` with one more delivery, to `chatId` with `text`. */
  ghost predicate AppendsOne(before: seq<Delivery>, after: seq<Delivery>, chatId: string, text: string) {
    |after| == |before| + 1 && after[..|before|] == before
    && after[|before|].chatId == chatId && after[|before|].text == text
  }

  /** A request and the send result the engine read from it. */
  datatype Attempt = Attempt(request: Post, result: SendResult)

  /** What the engine made of each exchange in a stretch of the transport's log. */
  function AttemptsOf(es: seq<Exchange>): (ats: seq<Attempt>)
    ensures |ats| == |es| && forall i :: 0 <= i < |es| ==> ats[i] == Attempt(es[i].request, ToSendResult(es[i].response))
  {
    seq(|es|, i requires 0 <= i < |es| => Attempt(es[i].request, ToSendResult(es[i].response)))
  }

  /** The attempts that a stretch of deliveries stands for under bot token `token`. */
  function DeliveriesAs(token: string, ds: seq<Delivery>): (ats: seq<Attempt>)
    ensures |ats| == |ds| && forall i :: 0 <= i < |ds| ==> ats[i] == Attempt(Post(token, ds[i].chatId, ds[i].text), ds[i].result)
  {
    seq(|ds|, i requires 0 <= i < |ds| => Attempt(Post(token, ds[i].chatId, ds[i].text), ds[i].result))
  }

  /**
   * From log positions `sends` and `requests` to `outbox` and `exchanges`:
   * with a token configured, each delivery went out as one request with the
   * token and its result is what the engine read from that request's
   * response; with none, no request went out and every delivery failed
   * without an error code.
   */
  ghost predicate Mirrored(token: Option<string>, sends: seq<Delivery>, requests: seq<Exchange>,
                           outbox: seq<Delivery>, exchanges: seq<Exchange>)
  {
    && sends <= outbox && requests <= exchanges
    && if Filled(token) then AttemptsOf(exchanges[|requests|..]) == DeliveriesAs(token.value, outbox[|sends|..])
       else |exchanges| == |requests| && forall d :: d in outbox[|sends|..] ==> d.result == NoTokenResult
  }

  /** The number of successful deliveries. */
  function CountSent(ds: seq<Delivery>): (n: nat)
    ensures n <= |ds|
  {
    if ds == [] then 0 else CountSent(ds[..|ds| - 1]) + (if ds[|ds| - 1].result.ok then 1 else 0)
  }

  /** The chats, in order, whose delivery failed with the blocked status. */
  function BlockedChats(ds: seq<Delivery>): (cs: seq<string>)
    ensures |cs| <= |ds|
  {
    if ds == [] then []
    else BlockedChats(ds[..|ds| - 1]) + (if SignalsDisconnect(ds[|ds| - 1].result.errorCode) then [ds[|ds| - 1].chatId] else [])
  }

  /** Counting and collecting blocked chats one more delivery at a time. */
  lemma CountsOfAppend(ds: seq<Delivery>, d: Delivery)
    ensures CountSent(ds + [d]) == CountSent(ds) + (if d.result.ok then 1 else 0)
    ensures BlockedChats(ds + [d]) == BlockedChats(ds) + (if SignalsDisconnect(d.result.errorCode) then [d.chatId] else [])
  {
    assert (ds + [d])[..|ds|] == ds;
  }

  /**
   * How far a broadcast has got: the deliveries so far went to the first targets in order, with
   * the same text, each as one request with the token when one is set and as none otherwise;
   * the count of successes and the disconnect log reflect exactly those deliveries.
   */
  ghost predicate BroadcastProgress(token: Option<string>, targets: seq<string>, text: string,
                                    sends: seq<Delivery>, requests: seq<Exchange>,
                                    sent: nat, failed: nat, disconnects0: seq<string>, disconnects: seq<string>)
  {
    && |sends| <= |targets|
    && (forall k :: 0 <= k < |sends| ==> sends[k].chatId == targets[k] && sends[k].text == text)
    && (!Filled(token) ==> requests == [] && forall k :: 0 <= k < |sends| ==> sends[k].result == NoTokenResult)
    && (Filled(token) ==>
          && |requests| == |sends|
          && forall k :: 0 <= k < |requests| ==>
               requests[k].request == Post(token.value, targets[k], text)
               && sends[k].result == ToSendResult(requests[k].response))
    && sent == CountSent(sends) && sent + failed == |sends|
    && disconnects == disconnects0 + BlockedChats(sends)
  }

  /** One more delivery, to the next target, keeps the broadcast's progress. */
  lemma BroadcastStep(token: Option<string>, targets: seq<string>, text: string,
                      sends: seq<Delivery>, requests: seq<Exchange>, d: Delivery, e: seq<Exchange>,
                      sent: nat, failed: nat, disconnects0: seq<string>, disconnects: seq<string>)
    requires BroadcastProgress(token, targets, text, sends, requests, sent, failed, disconnects0, disconnects)
    requires |sends| < |targets| && d.chatId == targets[|sends|] && d.text == text
    requires !Filled(token) ==> d.result == NoTokenResult && e == []
    requires Filled(token) ==>
               |e| == 1 && e[0].request == Post(token.value, d.chatId, d.text) && d.result == ToSendResult(e[0].response)
    ensures BroadcastProgress(token, targets, text, sends + [d], requests + e,
                              sent + (if d.result.ok then 1 else 0), failed + (if d.result.ok then 0 else 1),
                              disconnects0,
                              disconnects + (if SignalsDisconnect(d.result.errorCode) then [d.chatId] else []))
  {
    CountsOfAppend(sends, d);
    var sends', requests' := sends + [d], requests + e;
    forall k | 0 <= k < |sends'|
      ensures sends'[k].chatId == targets[k] && sends'[k].text == text
      ensures !Filled(token) ==> sends'[k].result == NoTokenResult
    {
      if k < |sends| {
        assert sends'[k] == sends[k];
      }
    }
    if Filled(token) {
      forall k | 0 <= k < |requests'|
        ensures requests'[k].request == Post(token.value, targets[k], text)
        ensures sends'[k].result == ToSendResult(requests'[k].response)
      {
        if k < |requests| {
          assert requests'[k] == requests[k] && sends'[k] == sends[k];
        }
      }
    }
  }

  /** A finished broadcast's stretch of deliveries and requests is mirrored. */
  lemma MirroredBroadcast(token: Option<string>, targets: seq<string>, text: string,
                          sends: seq<Delivery>, requests: seq<Exchange>, outbox: seq<Delivery>, exchanges: seq<Exchange>,
                          sent: nat, failed: nat, disconnects0: seq<string>, disconnects: seq<string>)
    requires sends <= outbox && requests <= exchanges && |outbox| == |sends| + |targets|
    requires BroadcastProgress(token, targets, text, outbox[|sends|..], exchanges[|requests|..],
                               sent, failed, disconnects0, disconnects)
    ensures Mirrored(token, sends, requests, outbox, exchanges)
  {
    if Filled(token) {
      var ps, qs := AttemptsOf(exchanges[|requests|..]), DeliveriesAs(token.value, outbox[|sends|..]);
      assert |ps| == |qs|;
      forall k | 0 <= k < |targets|
        ensures ps[k] == qs[k]
      {
      }
    } else {
      assert forall k :: 0 <= k < |targets| ==> outbox[|sends|..][k].result == NoTokenResult;
    }
  }

  /** When no delivery succeeds, none is counted as sent. */
  lemma {:induction false} NoneSentWhenAllFail(ds: seq<Delivery>)
    requires forall i :: 0 <= i < |ds| ==> !ds[i].result.ok
    ensures CountSent(ds) == 0
  {
    if ds != [] {
      NoneSentWhenAllFail(ds[..|ds| - 1]);
    }
  }

  /** When no delivery reports the blocked status, no chat gets a disconnect signal. */
  lemma {:induction false} NoBlockedWithoutStatus(ds: seq<Delivery>)
    requires forall i :: 0 <= i < |ds| ==> ds[i].result.errorCode.None?
    ensures BlockedChats(ds) == []
  {
    if ds != [] {
      NoBlockedWithoutStatus(ds[..|ds| - 1]);
    }
  }

  // ---------------------------------------------------------------- reply correlation

  /** `${chatId}:${messageId}`; the chat is recoverable from the key. */
  function ReplyKey(chatId: string, messageId: int): (k: string)
    ensures chatId <= k
    ensures KeyChat(k) == chatId
  {
    KeyChatOfSuffix(chatId, IntToString(messageId));
    chatId + ":" + IntToString(messageId)
  }

  /** Two reply keys are equal exactly when both the chat and the message id agree. */
  lemma ReplyKeyInjective(c1: string, m1: int, c2: string, m2: int)
    ensures ReplyKey(c1, m1) == ReplyKey(c2, m2) <==> c1 == c2 && m1 == m2
  {
    if ReplyKey(c1, m1) == ReplyKey(c2, m2) {
      var k := ReplyKey(c1, m1);
      assert c1 == c2;
      assert k[|c1| + 1..] == IntToString(m1);
      assert k[|c1| + 1..] == IntToString(m2);
      IntToStringInjective(m1, m2);
    }
  }

  /** The text before the last `:` of a reply key: the chat it belongs to. */
  function KeyChat(k: string): string {
    if k == [] then []
    else if k[|k| - 1] == ':' then k[..|k| - 1]
    else KeyChat(k[..|k| - 1])
  }

  /** A chat id, a colon and a colon-free suffix: the chat id is what precedes the last colon. */
  lemma {:induction false} KeyChatOfSuffix(chatId: string, suffix: string)
    requires ':' !in suffix
    ensures KeyChat(chatId + ":" + suffix) == chatId
  {
    var k := chatId + ":" + suffix;
    if suffix == [] {
      assert k[..|k| - 1] == chatId;
    } else {
      var shorter := suffix[..|suffix| - 1];
      assert k[..|k| - 1] == chatId + ":" + shorter;
      KeyChatOfSuffix(chatId, shorter);
    }
  }

  /** `message.reply_to_message?.message_id`. */
  function ReplyToId(m: Message): Option<int> {
    if m.replyTo.Some? then Some(m.replyTo.value.messageId) else None
  }

  /** A JavaScript-truthy message id: present and not zero. */
  predicate Truthy(id: Option<int>) {
    id.Some? && id.value != 0
  }

  /** A reply whose key holds a (non-empty) order id: the authoritative correlation. */
  predicate ReplyHit(replyContext: map<string, string>, chatId: string, replyTo: Option<int>) {
    Truthy(replyTo) && ReplyKey(chatId, replyTo.value) in replyContext
    && replyContext[ReplyKey(chatId, replyTo.value)] != ""
  }

  /**
   * The order an inbound text is about: the order stored for the replied-to
   * message when there is one, else the chat's only active order when it
   * has exactly one, else none.
   */
  function ResolveOrderId(replyContext: map<string, string>, activeOrders: map<string, seq<string>>,
                          chatId: string, replyTo: Option<int>): (r: Option<string>)
    ensures ReplyHit(replyContext, chatId, replyTo) ==> r == Some(replyContext[ReplyKey(chatId, replyTo.value)])
    ensures !ReplyHit(replyContext, chatId, replyTo) ==>
              (r.Some? <==> chatId in activeOrders && |activeOrders[chatId]| == 1)
    ensures !ReplyHit(replyContext, chatId, replyTo) && r.Some? ==> activeOrders[chatId] == [r.value]
  {
    if ReplyHit(replyContext, chatId, replyTo) then Some(replyContext[ReplyKey(chatId, replyTo.value)])
    else if chatId !in activeOrders || |activeOrders[chatId]| != 1 then None
    else Some(activeOrders[chatId][0])
  }

  // ---------------------------------------------------------------- broadcast targets

  /** `chatIds.map(id => String(id).trim())`: every id trimmed, in place. */
  function TrimEach(ids: seq<string>): (r: seq<string>)
    ensures |r| == |ids| && forall i :: 0 <= i < |ids| ==> r[i] == Trim(ids[i])
  {
    seq(|ids|, i requires 0 <= i < |ids| => Trim(ids[i]))
  }

  /** `filter(Boolean)` on strings: the non-empty ones, in order. */
  function NonEmpty(xs: seq<string>): (r: seq<string>)
    ensures forall k :: 0 <= k < |r| ==> r[k] != ""
    ensures forall x :: x in r <==> x in xs && x != ""
    ensures |r| <= |xs|
  {
    if xs == [] then []
    else (if xs[0] == "" then [] else [xs[0]]) + NonEmpty(xs[1..])
  }

  /** `filter` distributes over concatenation: each part is filtered in place. */
  lemma {:induction false} NonEmptyAppend(xs: seq<string>, ys: seq<string>)
    ensures NonEmpty(xs + ys) == NonEmpty(xs) + NonEmpty(ys)
  {
    if xs != [] {
      assert (xs + ys)[1..] == xs[1..] + ys;
      NonEmptyAppend(xs[1..], ys);
    } else {
      assert xs + ys == ys;
    }
  }

  /** `filter(Boolean)` keeps an id exactly once for each time the input has it. */
  lemma {:induction false} NonEmptyKeepsRepeats(xs: seq<string>, x: string)
    requires x != ""
    ensures multiset(NonEmpty(xs))[x] == multiset(xs)[x]
  {
    if xs != [] {
      assert xs == [xs[0]] + xs[1..];
      NonEmptyKeepsRepeats(xs[1..], x);
    }
  }

  /** `filter(Boolean)` keeps the input's order: kept ids first occur in the same order as in the input. */
  lemma {:induction false} NonEmptyKeepsOrder(xs: seq<string>, x: string, y: string)
    requires x in NonEmpty(xs) && y in NonEmpty(xs)
    ensures FirstIndex(NonEmpty(xs), x) < FirstIndex(NonEmpty(xs), y) <==> FirstIndex(xs, x) < FirstIndex(xs, y)
  {
    var r := NonEmpty(xs);
    if xs[0] == "" {
      assert r == NonEmpty(xs[1..]);
      NonEmptyKeepsOrder(xs[1..], x, y);
    } else {
      assert r == [xs[0]] + NonEmpty(xs[1..]);
      if x != xs[0] && y != xs[0] {
        NonEmptyKeepsOrder(xs[1..], x, y);
      }
    }
  }

  /** `chatIds.map(id => String(id).trim()).filter(Boolean)`: trimmed ids, empty ones dropped. */
  function CleanChatIds(ids: seq<string>): (r: seq<string>)
    ensures forall k :: 0 <= k < |r| ==> r[k] != ""
    ensures forall x :: x in r <==> exists i :: 0 <= i < |ids| && Trim(ids[i]) == x && x != ""
  {
    NonEmpty(TrimEach(ids))
  }

  /**
   * The chats a broadcast goes to: a non-empty `chatIds` list, cleaned and
   * deduplicated in first-occurrence order, whatever the segment; otherwise
   * every known chat for the `all_known` segment; otherwise none.
   */
  function BroadcastTargets(dto: BroadcastDto, knownChats: seq<string>): (r: seq<string>)
    ensures Distinct(knownChats) ==> Distinct(r)
    ensures dto.chatIds.Some? && dto.chatIds.value != [] ==>
              && Distinct(r)
              && (forall x :: x in r <==> exists i :: 0 <= i < |dto.chatIds.value| && Trim(dto.chatIds.value[i]) == x && x != "")
    ensures (dto.chatIds.None? || dto.chatIds.value == []) ==>
              r == (if dto.segment == Some(AllKnownSegment) then knownChats else [])
  {
    if dto.chatIds.Some? && |dto.chatIds.value| > 0 then
      var cleaned := CleanChatIds(dto.chatIds.value);
      var r := Dedupe(cleaned);
      assert forall x :: x in r <==> x in cleaned by {
        forall x ensures x in r <==> x in cleaned {
          assert x in r <==> x in Elements(r);
        }
      }
      r
    else if dto.segment == Some(AllKnownSegment) then knownChats
    else []
  }

  /**
   * Explicit targets come in the order in which each trimmed id first occurs
   * in the request's `chatIds`, each id read at its own position.
   */
  lemma ExplicitTargetsInFirstOccurrenceOrder(dto: BroadcastDto, knownChats: seq<string>, i: nat, j: nat)
    requires dto.chatIds.Some? && dto.chatIds.value != []
    requires i < j < |BroadcastTargets(dto, knownChats)|
    ensures var trimmed := TrimEach(dto.chatIds.value);
            var r := BroadcastTargets(dto, knownChats);
            r[i] in trimmed && r[j] in trimmed && FirstIndex(trimmed, r[i]) < FirstIndex(trimmed, r[j])
  {
    var trimmed := TrimEach(dto.chatIds.value);
    var cleaned := NonEmpty(trimmed);
    var r := BroadcastTargets(dto, knownChats);
    DedupeKeepsFirstOccurrenceOrder(cleaned, i, j);
    NonEmptyKeepsOrder(trimmed, r[i], r[j]);
  }

  // ---------------------------------------------------------------- relay state

  /** The correlation state of the engine. */
  datatype RelayState = RelayState(
    knownChats: seq<string>,
    replyContext: map<string, string>,
    activeOrdersByChat: map<string, seq<string>>)
  {
    /**
     * The known chats and each chat's active orders are sets (no repeats),
     * and every chat that has active orders or reply keys is known.
     */
    ghost predicate Valid() {
      && Distinct(knownChats)
      && (forall c :: c in activeOrdersByChat ==> c in knownChats && Distinct(activeOrdersByChat[c]))
      && (forall k :: k in replyContext ==> KeyChat(k) in knownChats)
    }

    /** `state` is this state with nothing removed: chats keep their order, keys and orders stay. */
    ghost predicate GrowsTo(state: RelayState) {
      && knownChats <= state.knownChats
      && replyContext.Keys <= state.replyContext.Keys
      && (forall c :: c in activeOrdersByChat ==>
            c in state.activeOrdersByChat && activeOrdersByChat[c] <= state.activeOrdersByChat[c])
    }

    /** `knownChats.add(chatId)`. */
    function RegisterChat(chatId: string): (s: RelayState)
      ensures GrowsTo(s)
      ensures Elements(s.knownChats) == Elements(knownChats) + {chatId}
      ensures s.replyContext == replyContext && s.activeOrdersByChat == activeOrdersByChat
      ensures Valid() ==> s.Valid()
    {
      this.(knownChats := SetAdd(knownChats, chatId))
    }

    /**
     * The bookkeeping of a successful chat-relay send: the reply key for a
     * truthy message id, and the order added to the chat's active orders.
     */
    function RecordRelay(chatId: string, orderId: string, messageId: Option<int>): (s: RelayState)
      ensures GrowsTo(s)
      ensures s.knownChats == knownChats
      ensures Truthy(messageId) ==> s.replyContext == replyContext[ReplyKey(chatId, messageId.value) := orderId]
      ensures !Truthy(messageId) ==> s.replyContext == replyContext
      ensures s.activeOrdersByChat.Keys == activeOrdersByChat.Keys + {chatId}
      ensures Elements(s.activeOrdersByChat[chatId])
              == (if chatId in activeOrdersByChat then Elements(activeOrdersByChat[chatId]) else {}) + {orderId}
      ensures chatId in activeOrdersByChat ==> activeOrdersByChat[chatId] <= s.activeOrdersByChat[chatId]
      ensures forall c :: c in s.activeOrdersByChat && c != chatId ==>
                c in activeOrdersByChat && s.activeOrdersByChat[c] == activeOrdersByChat[c]
      ensures Valid() && chatId in knownChats ==> s.Valid()
    {
      RelayState(knownChats, WithReplyKey(replyContext, chatId, orderId, messageId),
                 WithActiveOrder(activeOrdersByChat, chatId, orderId))
    }
  }

  /** `replyContext.set(replyKey(chatId, messageId), orderId)`, only for a truthy message id. */
  function WithReplyKey(replyContext: map<string, string>, chatId: string, orderId: string, messageId: Option<int>)
    : (r: map<string, string>)
    ensures Truthy(messageId) ==> r == replyContext[ReplyKey(chatId, messageId.value) := orderId]
    ensures !Truthy(messageId) ==> r == replyContext
    ensures forall k :: k in r ==> k in replyContext || KeyChat(k) == chatId
  {
    if Truthy(messageId) then replyContext[ReplyKey(chatId, messageId.value) := orderId] else replyContext
  }

  /** `activeOrdersByChat.get(chatId) ?? new Set()`, with the order added, stored back for the chat. */
  function WithActiveOrder(active: map<string, seq<string>>, chatId: string, orderId: string)
    : (r: map<string, seq<string>>)
    ensures r.Keys == active.Keys + {chatId}
    ensures Elements(r[chatId]) == (if chatId in active then Elements(active[chatId]) else {}) + {orderId}
    ensures chatId in active ==> active[chatId] <= r[chatId]
    ensures (chatId in active ==> Distinct(active[chatId])) ==> Distinct(r[chatId])
    ensures forall c :: c in r && c != chatId ==> c in active && r[c] == active[c]
  {
    var orders := if chatId in active then active[chatId] else [];
    assert Elements(orders) == if chatId in active then Elements(active[chatId]) else {};
    active[chatId := SetAdd(orders, orderId)]
  }

  /** An inbound reply to the message a chat-relay send produced resolves to that send's order. */
  lemma ReplyResolvesToRelayedOrder(state: RelayState, chatId: string, orderId: string, messageId: int)
    requires messageId != 0 && orderId != ""
    ensures var s := state.RecordRelay(chatId, orderId, Some(messageId));
            ResolveOrderId(s.replyContext, s.activeOrdersByChat, chatId, Some(messageId)) == Some(orderId)
  {
  }

  /**
   * Without a message id the relay leaves no reply key, and a later message
   * of a chat that had no active order resolves to the relayed order through
   * the single-active-order fallback.
   */
  lemma FallbackResolvesSingleOrder(state: RelayState, chatId: string, orderId: string, replyTo: Option<int>)
    requires chatId !in state.activeOrdersByChat
    requires !ReplyHit(state.replyContext, chatId, replyTo)
    ensures var s := state.RecordRelay(chatId, orderId, None);
            ResolveOrderId(s.replyContext, s.activeOrdersByChat, chatId, replyTo) == Some(orderId)
  {
  }

  /** A chat with two or more distinct active orders and no reply hit resolves no order. */
  lemma AmbiguousChatResolvesNothing(state: RelayState, chatId: string, replyTo: Option<int>)
    requires chatId in state.activeOrdersByChat && |state.activeOrdersByChat[chatId]| >= 2
    requires !ReplyHit(state.replyContext, chatId, replyTo)
    ensures ResolveOrderId(state.replyContext, state.activeOrdersByChat, chatId, replyTo).None?
  {
  }

  // ---------------------------------------------------------------- statistics

  /** The engine's thirteen counters. */
  datatype Counters = Counters(
    webhookUpdates: nat,
    incomingTextMessages: nat,
    incomingUnsupportedMessages: nat,
    relayedToSite: nat,
    relayFailed: nat,
    notifySent: nat,
    notifyFailed: nat,
    chatSent: nat,
    chatFailed: nat,
    disconnectSent: nat,
    disconnectFailed: nat,
    broadcastSent: nat,
    broadcastFailed: nat)
  {
    /** These counters after `sent` more successful and `failed` more failed broadcast deliveries. */
    function AfterBroadcast(sent: nat, failed: nat): (c: Counters)
      ensures c.broadcastSent == broadcastSent + sent && c.broadcastFailed == broadcastFailed + failed
      ensures c.(broadcastSent := broadcastSent, broadcastFailed := broadcastFailed) == this
    {
      this.(broadcastSent := broadcastSent + sent, broadcastFailed := broadcastFailed + failed)
    }

    /** Every counter but the two broadcast counters is the same in `other`. */
    predicate AgreesOutsideBroadcast(other: Counters) {
      && webhookUpdates == other.webhookUpdates
      && incomingTextMessages == other.incomingTextMessages
      && incomingUnsupportedMessages == other.incomingUnsupportedMessages
      && relayedToSite == other.relayedToSite
      && relayFailed == other.relayFailed
      && notifySent == other.notifySent
      && notifyFailed == other.notifyFailed
      && chatSent == other.chatSent
      && chatFailed == other.chatFailed
      && disconnectSent == other.disconnectSent
      && disconnectFailed == other.disconnectFailed
    }
  }

  const ZeroCounters := Counters(0, 0, 0, 0, 0, 0, 0, 0, 0, 0, 0, 0, 0)

  /** The optional `range` query of the stats endpoint. */
  datatype StatsRange = StatsRange(from: Option<string>, to: Option<string>)

  /** The stats snapshot, without the start time. */
  datatype StatsSnapshot = StatsSnapshot(
    counters: Counters, knownChats: nat, replyContextSize: nat, from: Option<string>, to: Option<string>)
}
