/**
 * The shapes of the data the relay engine receives and produces: the bot's
 * webhook update, the three outbound request bodies, and the result of one
 * send. The request validation is not modelled: the types stand in for its
 * shape checks (`chatIds` is a list of strings, say), and the one value check
 * the engine relies on, a non-empty `orderId` on a chat relay, is a
 * precondition of the lemmas that use it.
 */
module Dto {
  import opened Wrappers

  /** An attachment the relay does not interpret (voice note, photo, document, video): only its presence matters. */
  datatype Media = Media

  datatype Chat = Chat(id: int, chatType: string)

  datatype Sender = Sender(id: int, username: Option<string>, firstName: Option<string>, lastName: Option<string>)

  /** The message an inbound message answers, as `reply_to_message` carries it. */
  datatype RepliedTo = RepliedTo(messageId: int, text: Option<string>)

  datatype Message = Message(
    messageId: int,
    text: Option<string>,
    voice: Option<Media>,
    photo: Option<seq<Media>>,
    document: Option<Media>,
    video: Option<Media>,
    chat: Chat,
    from: Option<Sender>,
    replyTo: Option<RepliedTo>)

  /** One webhook update: a new message, an edited message, both or neither. */
  datatype Update = Update(updateId: int, message: Option<Message>, editedMessage: Option<Message>)

  /** Body of a broadcast request: explicit chat ids or a named segment, and the text. */
  datatype BroadcastDto = BroadcastDto(segment: Option<string>, chatIds: Option<seq<string>>, message: string)

  /**
   * Body of a notification request. The optional `data` object is represented
   * by its JSON serialisation.
   */
  datatype NotifyDto = NotifyDto(chatId: string, event: string, text: Option<string>, data: Option<string>)

  /** Body of a chat-relay request: a site chat message about one order. */
  datatype ChatMessageDto = ChatMessageDto(chatId: string, orderId: string, from: string, text: string)

  /** What one outbound send reports: success, the id the bot API gave the message, the HTTP status of a failure. */
  datatype SendResult = SendResult(ok: bool, messageId: Option<int>, errorCode: Option<int>) {
    /** A success carries no error code and a failure no message id. */
    predicate WellFormed() {
      (ok ==> errorCode.None?) && (!ok ==> messageId.None?)
    }
  }

  /** The answer of a broadcast: how many targets, how many sends succeeded and failed. */
  datatype BroadcastResult = BroadcastResult(total: nat, sent: nat, failed: nat)

  /** The body forwarded to the site for an inbound text. */
  datatype ForwardPayload = ForwardPayload(chatId: string, text: string, orderId: Option<string>)

  /** The user a link token belongs to. */
  datatype LinkedUser = LinkedUser(userId: string)
}
