/**
 * `clients` and `qrCodes` are plain JavaScript objects, so `clients[id]`
 * also yields the members every object inherits from `Object.prototype`.
 * This module models the /send, /qr and /logout lookups as written and
 * shows, for each, the request that takes the wrong branch; the rest of
 * the model looks up own entries only, as the handlers evidently intend.
 */
module PlainObjectLookup {
  import opened Wrappers
  import opened Js
  import opened Api
  import opened Sessions

  /** Names every plain object inherits, each a truthy value. */
  const OBJECT_PROTOTYPE_MEMBERS: set<string> := {
    "constructor", "hasOwnProperty", "isPrototypeOf", "propertyIsEnumerable",
    "toLocaleString", "toString", "valueOf", "__proto__",
    "__defineGetter__", "__defineSetter__", "__lookupGetter__", "__lookupSetter__"
  }

  /** The message of the TypeError thrown by calling a missing `sendMessage`. */
  const NOT_A_FUNCTION := "client.sendMessage is not a function"

  /** What `obj[key]` reads on a plain object. */
  datatype Slot<T> = Own(value: T) | Inherited | Undefined

  function PropertyGet<T>(m: map<string, T>, key: string): (s: Slot<T>)
    ensures s.Own? <==> key in m
    ensures s.Own? ==> s.value == m[key]
    ensures s.Undefined? <==> key !in m && key !in OBJECT_PROTOTYPE_MEMBERS
  {
    if key in m then Own(m[key])
    else if key in OBJECT_PROTOTYPE_MEMBERS then Inherited
    else Undefined
  }

  /**
   * The /send decision as written. An inherited member passes `!client`;
   * it has no `sendMessage`, so the call throws inside the try block and
   * the request is answered 500 without reaching the library.
   */
  function SendAsWritten(clients: map<string, Client>, apiKey: Option<string>, id: string,
                         number: Option<string>, message: Option<string>,
                         sendRejection: Option<string>): (r: Response)
    ensures !Authorized(apiKey) ==> r == Unauthorized()
    ensures Authorized(apiKey) && Truthy(number) && Truthy(message) && id !in clients ==>
              r.Reply? && (r.status == 400 <==> id !in OBJECT_PROTOTYPE_MEMBERS)
  {
    if !Authorized(apiKey) then Unauthorized()
    else if !Truthy(number) || !Truthy(message) then Reply(400, ErrorBody(NUMBER_AND_MESSAGE_REQUIRED))
    else
      match PropertyGet(clients, id)
      case Undefined => Reply(400, ErrorBody(CLIENT_NOT_INITIALIZED))
      case Inherited => Reply(500, ErrorBody(NOT_A_FUNCTION))
      case Own(_) =>
        if sendRejection.Some? then Reply(500, ErrorBody(sendRejection.value)) else Reply(200, SuccessBody)
  }

  /**
   * With no session named "toString", POST /send/toString carrying the
   * right key, a number and a message is answered 500 rather than 400
   * "Client not initialized".
   */
  lemma InheritedIdAnswers500(clients: map<string, Client>)
    requires "toString" !in clients
    ensures SendAsWritten(clients, Some(STATIC_API_KEY), "toString", Some("15551234567"), Some("hi"), None)
            == Reply(500, ErrorBody(NOT_A_FUNCTION))
  {
  }

  /**
   * The /qr decision as written. Every inherited member is truthy. All but
   * `__proto__` are functions, which `res.json({ qr: f })` drops, answering
   * 200 with `{}`; `__proto__` is `Object.prototype` itself, an object
   * with no own enumerable fields, answered 200 with `{"qr":{}}`.
   */
  function GetQrAsWritten(qrCodes: map<string, string>, apiKey: Option<string>, id: string): (r: Response)
    ensures !Authorized(apiKey) ==> r == Unauthorized()
    ensures Authorized(apiKey) && id !in qrCodes ==>
              r.Reply? && (r.status == 400 <==> id !in OBJECT_PROTOTYPE_MEMBERS)
    ensures Authorized(apiKey) && id !in qrCodes && id in OBJECT_PROTOTYPE_MEMBERS ==>
              r == Reply(200, if id == "__proto__" then QrEmptyObjectBody else EmptyBody)
  {
    if !Authorized(apiKey) then Unauthorized()
    else
      match PropertyGet(qrCodes, id)
      case Undefined => Reply(400, ErrorBody(QR_NOT_AVAILABLE))
      case Inherited => Reply(200, if id == "__proto__" then QrEmptyObjectBody else EmptyBody)
      case Own(url) =>
        if url != "" then Reply(200, QrBody(url)) else Reply(400, ErrorBody(QR_NOT_AVAILABLE))
  }

  /** With no QR code stored under "toString", GET /qr/toString is answered 200 with `{}`. */
  lemma InheritedIdGetsEmptyQr(qrCodes: map<string, string>)
    requires "toString" !in qrCodes
    ensures GetQrAsWritten(qrCodes, Some(STATIC_API_KEY), "toString") == Reply(200, EmptyBody)
  {
  }

  /**
   * The /logout decision as written, with the entries it leaves. An
   * inherited member passes `if (client)`; calling its missing `logout`
   * throws outside any try block, so no reply is written and nothing is
   * deleted.
   */
  function LogoutAsWritten(r: Entries, apiKey: Option<string>, id: string, logoutRejects: bool)
    : (out: (Response, Entries))
    ensures !Authorized(apiKey) ==> out == (Unauthorized(), r)
    ensures Authorized(apiKey) && id !in r.clients ==>
              out.1 == r && (out.0 == Reply(400, ErrorBody(CLIENT_NOT_FOUND)) <==> id !in OBJECT_PROTOTYPE_MEMBERS)
  {
    if !Authorized(apiKey) then (Unauthorized(), r)
    else
      match PropertyGet(r.clients, id)
      case Undefined => (Reply(400, ErrorBody(CLIENT_NOT_FOUND)), r)
      case Inherited => (NoReply, r)
      case Own(_) => if logoutRejects then (NoReply, r) else (Reply(200, SuccessBody), Remove(r, id))
  }

  /**
   * With no session named "toString", POST /logout/toString carrying the
   * right key gets no reply rather than 400 "Client not found".
   */
  lemma InheritedIdLogoutNoReply(r: Entries)
    requires "toString" !in r.clients
    ensures LogoutAsWritten(r, Some(STATIC_API_KEY), "toString", false) == (NoReply, r)
  {
  }
}
