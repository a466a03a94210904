/**
 * Whole-engine runs on fresh objects: the behaviour the repository's
 * end-to-end tests check (test/app.e2e-spec.ts), and single runs of the
 * linking flow and of broadcast targeting.
 */
module RelayScenarios {
  import opened Wrappers
  import opened Collections
  import opened Strings
  import opened Dto
  import opened Collaborators
  import opened RelayRules
  import opened TelegramRelay

  /** A text message in private chat 42. */
  function TextIn42(text: string): Update {
    Update(1, Some(Message(7, Some(text), None, None, None, None, Chat(42, "private"), None, None)), None)
  }

  /** Explicit ids that are clean and distinct are the targets as given. */
  lemma ExplicitTargets(dto: BroadcastDto, knownChats: seq<string>)
    requires dto.chatIds.Some? && dto.chatIds.value != []
    requires CleanChatIds(dto.chatIds.value) == dto.chatIds.value && Distinct(dto.chatIds.value)
    ensures BroadcastTargets(dto, knownChats) == dto.chatIds.value
  {
    DedupeOfDistinct(dto.chatIds.value);
  }

  /** Cleaning ids "1" and "2" keeps both. */
  lemma CleanTwoIds()
    ensures CleanChatIds(["1", "2"]) == ["1", "2"]
  {
    TrimDigits();
    assert ["1", "2"][..1] == ["1"];
    assert ["1"][..0] == [];
  }

  /** Single digits have nothing to trim. */
  lemma TrimDigits()
    ensures Trim("1") == "1" && Trim("2") == "2"
  {
  }

  /** With an empty `BOT_TOKEN`, a broadcast to clean, distinct ids fails for each of them and sends nothing. */
  method BroadcastWithoutToken(ids: seq<string>, message: string) returns (r: BroadcastResult, requests: nat, disconnects: nat)
    requires ids != [] && CleanChatIds(ids) == ids && Distinct(ids)
    ensures r == BroadcastResult(|ids|, 0, |ids|)
    ensures requests == 0 && disconnects == 0
  {
    var transport := new BotTransport();
    var site := new SiteApi(Some("http://localhost:3000"));
    var engine := new TelegramService(Some(""), transport, site);
    var dto := BroadcastDto(None, Some(ids), message);
    ExplicitTargets(dto, engine.knownChats);
    r := engine.SendBroadcast(dto);
    requests := |transport.exchanges|;
    disconnects := |site.disconnects|;
  }

  /** With an empty `BOT_TOKEN`, a broadcast to ids "1" and "2" fails twice and sends nothing. */
  method BroadcastWithoutBotToken(message: string) returns (r: BroadcastResult, requests: nat)
    ensures r == BroadcastResult(2, 0, 2)
    ensures requests == 0
  {
    CleanTwoIds();
    var disconnects;
    r, requests, disconnects := BroadcastWithoutToken(["1", "2"], message);
  }

  /** The `all_known` segment on an engine that knows no chat reaches nobody. */
  method BroadcastToNoKnownChats() returns (r: BroadcastResult)
    ensures r == BroadcastResult(0, 0, 0)
  {
    var transport := new BotTransport();
    var site := new SiteApi(None);
    var engine := new TelegramService(Some("test-token"), transport, site);
    r := engine.SendBroadcast(BroadcastDto(Some(AllKnownSegment), None, "hello"));
  }

  /** An update with neither a message nor an edited message only counts the update. */
  method EmptyUpdateOnlyCounts() returns (counters: Counters, knownChats: nat, requests: nat)
    ensures counters == ZeroCounters.(webhookUpdates := 1)
    ensures knownChats == 0 && requests == 0
  {
    var transport := new BotTransport();
    var site := new SiteApi(Some("http://localhost:3000"));
    var engine := new TelegramService(Some("test-token"), transport, site);
    engine.HandleUpdate(Update(1, None, None));
    counters := engine.stats;
    knownChats := engine.GetStats(None).knownChats;
    requests := |transport.exchanges|;
  }

  /** The chat key of chat 42. */
  lemma ChatKey42()
    ensures IntToString(42) == "42"
  {
    assert NatToString(4) == "4";
  }

  /** A bare `/start` has no payload. */
  lemma BareStart()
    ensures LinkStepOf("/start") == AskToLink
  {
    assert Join(["/start"], ' ') == "/start";
    SplitJoin(["/start"], ' ');
  }

  /** A token with no whitespace in it. */
  predicate Untrimmable(token: string) {
    forall k :: 0 <= k < |token| ==> !IsTrimmable(token[k])
  }

  /** `/start link_<token>` splits into the command and the payload. */
  lemma LinkCommandSplit(token: string)
    requires Untrimmable(token)
    ensures Split(StartCommand + " " + LinkPrefix + token, ' ') == [StartCommand, LinkPrefix + token]
  {
    assert Join([StartCommand, LinkPrefix + token], ' ') == StartCommand + " " + LinkPrefix + token;
    assert ' ' !in LinkPrefix + token by {
      assert forall k :: 0 <= k < |LinkPrefix| ==> (LinkPrefix + token)[k] == LinkPrefix[k] != ' ';
      assert forall k :: |LinkPrefix| <= k < |LinkPrefix + token| ==> (LinkPrefix + token)[k] == token[k - |LinkPrefix|];
    }
    SplitJoin([StartCommand, LinkPrefix + token], ' ');
  }

  /** The payload of `/start link_<token>` has nothing to trim. */
  lemma LinkCommandPayload(token: string)
    requires Untrimmable(token)
    ensures StartPayload(StartCommand + " " + LinkPrefix + token) == Some(LinkPrefix + token)
  {
    LinkCommandSplit(token);
    var payload := LinkPrefix + token;
    assert forall k :: 0 <= k < |payload| ==> !IsTrimmable(payload[k]) by {
      assert forall k :: 0 <= k < |LinkPrefix| ==> payload[k] == LinkPrefix[k];
      assert forall k :: |LinkPrefix| <= k < |payload| ==> payload[k] == token[k - |LinkPrefix|];
    }
  }

  /** `/start link_<token>` asks to resolve `<token>`. */
  lemma LinkCommandStep(token: string)
    requires Untrimmable(token)
    ensures LinkStepOf(StartCommand + " " + LinkPrefix + token) == ResolveToken(token)
  {
    LinkCommandPayload(token);
    ReplacePrefix(LinkPrefix + token, LinkPrefix);
    assert (LinkPrefix + token)[|LinkPrefix|..] == token;
  }

  /** `/start` without a payload sends the instruction text once and looks nothing up. */
  method StartWithoutPayload() returns (requests: seq<Exchange>, lookups: seq<Lookup>)
    ensures |requests| == 1 && requests[0].request == Post("test-token", "42", AskToLinkText)
    ensures lookups == []
  {
    var transport := new BotTransport();
    var site := new SiteApi(Some("http://localhost:3000"));
    var engine := new TelegramService(Some("test-token"), transport, site);
    ChatKey42();
    BareStart();
    engine.HandleUpdate(TextIn42("/start"));
    requests := transport.exchanges;
    lookups := site.lookups;
  }

  /**
   * `/start link_<token>` with a site client that has no base URL looks the token up once,
   * gets no user, and sends the expired-link text once.
   */
  method StartWithUnknownToken(token: string) returns (requests: seq<Exchange>, lookups: seq<Lookup>)
    requires Untrimmable(token)
    ensures |requests| == 1 && requests[0].request == Post("test-token", "42", LinkExpiredText)
    ensures lookups == [Lookup(token, None)]
  {
    var transport := new BotTransport();
    var site := new SiteApi(None);
    var engine := new TelegramService(Some("test-token"), transport, site);
    ChatKey42();
    var command := StartCommand + " " + LinkPrefix + token;
    LinkCommandStep(token);
    assert RouteOf(TextIn42(command).message.value) == LinkingFlow(command) by {
      assert StartCommand <= command;
    }
    engine.HandleUpdate(TextIn42(command));
    requests := transport.exchanges;
    lookups := site.lookups;
  }

  /** A notification without a `BOT_TOKEN` is reported as not sent and is counted as failed. */
  method NotifyWithoutBotToken() returns (ok: bool, failedCounter: nat, requests: nat)
    ensures !ok && failedCounter == 1 && requests == 0
  {
    var transport := new BotTransport();
    var site := new SiteApi(Some("http://localhost:3000"));
    var engine := new TelegramService(Some(""), transport, site);
    ok := engine.SendNotify(NotifyDto("1", "test", None, None));
    failedCounter := engine.stats.notifyFailed;
    requests := |transport.exchanges|;
  }
}
