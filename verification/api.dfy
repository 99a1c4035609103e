/**
 * The pure decisions every endpoint shares: the static API-key guard, the
 * chat-id rule used by /send, and the shape of the replies.
 */
module Api {
  import opened Wrappers
  import opened Js

  /** The single shared secret every endpoint compares against. */
  const STATIC_API_KEY := "your-static-api-key"

  /** The suffix that turns a phone number into a contact chat id. */
  const CONTACT_SUFFIX := "@c.us"

  const INVALID_API_KEY := "Invalid API key"
  const QR_NOT_AVAILABLE := "QR code not available"
  const NUMBER_AND_MESSAGE_REQUIRED := "Number and message required"
  const CLIENT_NOT_INITIALIZED := "Client not initialized"
  const CLIENT_NOT_FOUND := "Client not found"

  /** JSON bodies the handlers write. */
  datatype Body =
    | ErrorBody(error: string)
    | QrBody(qr: string)
    | InstanceBody(instanceId: string, apiKey: string)
    | SuccessBody
    /** `{}`: an object whose only field held a function, which JSON serialisation drops. */
    | EmptyBody
    /** `{"qr":{}}`: an object whose only field held an object with no own enumerable fields. */
    | QrEmptyObjectBody

  /**
   * What a request gets back: a status and a JSON body, or nothing at all
   * when an awaited external call rejects outside any try block and the
   * handler's promise rejects unhandled.
   */
  datatype Response = Reply(status: nat, body: Body) | NoReply

  /**
   * The guard `!apiKey || apiKey !== key` negated: the request may proceed.
   * Because the static key is not empty, the truthiness test adds nothing
   * to exact equality.
   */
  function Authorized(apiKey: Option<string>): (ok: bool)
    ensures ok <==> apiKey == Some(STATIC_API_KEY)
  {
    Truthy(apiKey) && apiKey.value == STATIC_API_KEY
  }

  /** The reply every endpoint gives to a missing or wrong key. */
  function Unauthorized(): (r: Response)
    ensures r.Reply? && r.status == 401 && r.body.ErrorBody?
  {
    Reply(401, ErrorBody(INVALID_API_KEY))
  }

  /**
   * The destination `sendMessage` is given: the number itself when it
   * already contains the contact suffix anywhere, otherwise the number with
   * the suffix appended.
   */
  function ChatId(number: string): (chatId: string)
    ensures Includes(chatId, CONTACT_SUFFIX)
    ensures chatId == number <==> Includes(number, CONTACT_SUFFIX)
    ensures chatId == number || chatId == number + CONTACT_SUFFIX
  {
    if Includes(number, CONTACT_SUFFIX) then number
    else
      IncludesAppended(number, CONTACT_SUFFIX);
      assert |number + CONTACT_SUFFIX| > |number|;
      number + CONTACT_SUFFIX
  }

  /** Normalising a chat id a second time changes nothing. */
  lemma ChatIdIdempotent(number: string)
    ensures ChatId(ChatId(number)) == ChatId(number)
  {
  }

  /** The number the caller gave is always the start of the chat id. */
  lemma ChatIdKeepsNumber(number: string)
    ensures |number| <= |ChatId(number)| <= |number| + |CONTACT_SUFFIX|
    ensures ChatId(number)[..|number|] == number
  {
  }
}
