/**
 * The two network peers of the relay engine, as oracles: each call is logged
 * and its answer is arbitrary, within what the peer's client code can return.
 */
module Collaborators {
  import opened Wrappers
  import opened Dto

  /** One `sendMessage` request to the bot API. */
  datatype Post = Post(token: string, chatId: string, text: string)

  /**
   * What the HTTP call can end in: a response whose body may carry
   * `result.message_id`, an HTTP client error that may carry the response
   * status, or any other thrown error.
   */
  datatype HttpOutcome = Delivered(messageId: Option<int>) | HttpError(status: Option<int>) | OtherError

  datatype Exchange = Exchange(request: Post, response: HttpOutcome)

  /** The bot API's `sendMessage` endpoint. */
  class BotTransport {
    /** Every request made, with the outcome it had. */
    var exchanges: seq<Exchange>

    constructor ()
      ensures exchanges == []
    {
      exchanges := [];
    }

    method SendMessage(token: string, chatId: string, text: string) returns (outcome: HttpOutcome)
      modifies this
      ensures exchanges == old(exchanges) + [Exchange(Post(token, chatId, text), outcome)]
    {
      outcome := *;
      exchanges := exchanges + [Exchange(Post(token, chatId, text), outcome)];
    }
  }

  /** One call of the site client's link-token lookup, with its answer. */
  datatype Lookup = Lookup(token: string, answer: Option<LinkedUser>)

  /** One forward of an inbound text to the site, with whether it was accepted. */
  datatype Forward = Forward(payload: ForwardPayload, accepted: bool)

  /**
   * The site client. Without a configured site URL it answers `null`/`false`
   * and reaches nothing; with one, any answer is possible, since a network
   * error also becomes `null`/`false`.
   */
  class SiteApi {
    /** The `SITE_API_URL` setting. */
    const baseUrl: Option<string>
    var lookups: seq<Lookup>
    var forwards: seq<Forward>
    var disconnects: seq<string>

    constructor (baseUrl: Option<string>)
      ensures this.baseUrl == baseUrl
      ensures lookups == [] && forwards == [] && disconnects == []
    {
      this.baseUrl := baseUrl;
      lookups, forwards, disconnects := [], [], [];
    }

    /** A `SITE_API_BASE_URL` is set. */
    predicate Configured() {
      Filled(baseUrl)
    }

    method ResolveLinkToken(token: string) returns (answer: Option<LinkedUser>)
      modifies this
      ensures !Configured() ==> answer.None?
      ensures lookups == old(lookups) + [Lookup(token, answer)]
      ensures forwards == old(forwards) && disconnects == old(disconnects)
    {
      if Configured() {
        answer := *;
      } else {
        answer := None;
      }
      lookups := lookups + [Lookup(token, answer)];
    }

    method ForwardMessageFromTelegram(payload: ForwardPayload) returns (accepted: bool)
      modifies this
      ensures !Configured() ==> !accepted
      ensures forwards == old(forwards) + [Forward(payload, accepted)]
      ensures lookups == old(lookups) && disconnects == old(disconnects)
    {
      if Configured() {
        accepted := *;
      } else {
        accepted := false;
      }
      forwards := forwards + [Forward(payload, accepted)];
    }

    /** Fire-and-forget: the call is recorded whether or not it reaches the site. */
    method MarkUserDisconnected(chatId: string)
      modifies this
      ensures disconnects == old(disconnects) + [chatId]
      ensures lookups == old(lookups) && forwards == old(forwards)
    {
      disconnects := disconnects + [chatId];
    }
  }
}
