/**
 * The development stand-in for the external site: a fixed table of link
 * tokens and two append-only logs, one of forwarded chat messages and one of
 * chats reported as disconnected.
 */
module MockSite {
  import opened Wrappers
  import opened Dto

  /** One stored chat message (its creation time is not modelled). */
  datatype StoredMessage = StoredMessage(chatId: string, text: string, orderId: Option<string>)

  /** The answer of the two write endpoints. */
  datatype Ack = Ack(ok: bool)

  class MockSiteService {
    /** Link token to user id; fixed for the life of the service. */
    const validTokens: map<string, string> := map["valid-token" := "test-user-1", "valid-token-2" := "test-user-2"]
    var messages: seq<StoredMessage>
    var disconnectedUsers: seq<string>

    constructor ()
      ensures messages == [] && disconnectedUsers == []
    {
      messages, disconnectedUsers := [], [];
    }

    /** The user of a token in the table, or none for any other token. */
    function ResolveLinkToken(token: string): (r: Option<LinkedUser>)
      ensures token == "valid-token" ==> r == Some(LinkedUser("test-user-1"))
      ensures token == "valid-token-2" ==> r == Some(LinkedUser("test-user-2"))
      ensures token != "valid-token" && token != "valid-token-2" ==> r.None?
    {
      if token in validTokens && validTokens[token] != "" then Some(LinkedUser(validTokens[token])) else None
    }

    /** Stores a forwarded message at the end of the log. */
    method SaveFromTelegram(payload: ForwardPayload) returns (ack: Ack)
      modifies this`messages
      ensures messages == old(messages) + [StoredMessage(payload.chatId, payload.text, payload.orderId)]
      ensures ack.ok
    {
      messages := messages + [StoredMessage(payload.chatId, payload.text, payload.orderId)];
      ack := Ack(true);
    }

    /** Records a chat as disconnected; repeated reports are all kept. */
    method MarkDisconnected(chatId: string) returns (ack: Ack)
      modifies this`disconnectedUsers
      ensures disconnectedUsers == old(disconnectedUsers) + [chatId]
      ensures ack.ok
    {
      disconnectedUsers := disconnectedUsers + [chatId];
      ack := Ack(true);
    }

    method GetMessages() returns (log: seq<StoredMessage>)
      ensures log == messages
    {
      log := messages;
    }

    method GetDisconnectedUsers() returns (log: seq<string>)
      ensures log == disconnectedUsers
    {
      log := disconnectedUsers;
    }
  }

  /** A fresh stand-in answers the two table tokens and refuses an unknown one. */
  method LinkLookupsOnFreshSite() returns (first: Option<LinkedUser>, second: Option<LinkedUser>, bad: Option<LinkedUser>)
    ensures first == Some(LinkedUser("test-user-1"))
    ensures second == Some(LinkedUser("test-user-2"))
    ensures bad == None
  {
    var site := new MockSiteService();
    first := site.ResolveLinkToken("valid-token");
    second := site.ResolveLinkToken("valid-token-2");
    bad := site.ResolveLinkToken("bad-token");
  }

  /** Two forwarded messages are read back in arrival order, and a repeated disconnect report is kept twice. */
  method LogsKeepArrivalOrder(a: ForwardPayload, b: ForwardPayload, chatId: string)
    returns (log: seq<StoredMessage>, disconnected: seq<string>)
    ensures log == [StoredMessage(a.chatId, a.text, a.orderId), StoredMessage(b.chatId, b.text, b.orderId)]
    ensures disconnected == [chatId, chatId]
  {
    var site := new MockSiteService();
    var _ := site.SaveFromTelegram(a);
    var _ := site.SaveFromTelegram(b);
    var _ := site.MarkDisconnected(chatId);
    var _ := site.MarkDisconnected(chatId);
    log := site.GetMessages();
    disconnected := site.GetDisconnectedUsers();
  }
}
