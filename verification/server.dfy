/**
 * The server's module-level state and the code that changes or reads it:
 * client creation, the lifecycle handlers, and the four endpoint handlers
 * stripped of their HTTP wiring.
 */
module Server {
  import opened Wrappers
  import opened Js
  import opened Api
  import opened Sessions

  const CLIENT_ALREADY_EXISTS := "Client already exists"
  const CLIENT_INITIALIZED := "Client initialized"

  /** How `initializeClient` settles: with its message, or rejected by `initialize()`. */
  datatype InitResult = Settled(message: string) | Rejected

  /** A call into the messaging library that a request reached. */
  datatype ClientCall =
    | SendMessageCall(client: Client, chatId: string, text: string)
    | LogoutCall(client: Client)
    | InitializeCall(client: Client)

  /** The two dictionaries `clients` and `qrCodes`, keyed by instance id. */
  class Registry {
    var clients: map<string, Client>
    var qrCodes: map<string, string>
    /** The ids `initializeClient` has built a client (and its handlers) for. */
    ghost var created: set<string>

    /**
     * Entries only ever exist for ids a client was created for, and the
     * client stored under an id was built with that id as its auth id.
     */
    ghost predicate Valid()
      reads this
    {
      && clients.Keys <= created
      && qrCodes.Keys <= created
      && forall id :: id in clients ==> clients[id].clientId == id
    }

    function View(): Entries
      reads this
    {
      Entries(clients, qrCodes)
    }

    /** Both dictionaries start empty. */
    constructor ()
      ensures Valid() && View() == Entries(map[], map[]) && created == {}
    {
      clients := map[];
      qrCodes := map[];
      created := {};
    }

    /**
     * `initializeClient(id)`: an id already present is left alone; otherwise
     * a new client is stored under `id` before its `initialize()` is
     * awaited, so the entry stays even when initialisation rejects.
     * The presence test here is on own entries: the ids that reach this
     * method come from the UUID generator, and no UUID is the name of a
     * member every object inherits.
     */
    method InitializeClient(id: string, initializeRejects: bool) returns (result: InitResult)
      requires Valid()
      modifies this
      ensures Valid()
      ensures old(id in clients) ==>
                result == Settled(CLIENT_ALREADY_EXISTS) && View() == old(View()) && created == old(created)
      ensures old(id !in clients) ==>
                && id in clients && fresh(clients[id]) && clients[id].clientId == id
                && clients - {id} == old(clients) && qrCodes == old(qrCodes)
                && created == old(created) + {id}
                && result == (if initializeRejects then Rejected else Settled(CLIENT_INITIALIZED))
    {
      if id in clients {
        return Settled(CLIENT_ALREADY_EXISTS);
      }
      var client := new Client(id);
      created := created + {id};
      clients := clients[id := client];
      if initializeRejects {
        result := Rejected;
      } else {
        result := Settled(CLIENT_INITIALIZED);
      }
    }

    /** The `qr` handler: store the rendered data URL, or nothing if rendering failed. */
    method OnQr(id: string, rendered: Option<string>)
      requires Valid() && id in created
      modifies this
      ensures Valid() && created == old(created)
      ensures View() == Apply(old(View()), id, QrEvent(rendered))
    {
      if rendered.Some? {
        qrCodes := qrCodes[id := rendered.value];
      }
    }

    /** The `ready` handler only logs. */
    method OnReady(id: string)
      requires Valid() && id in created
      modifies this
      ensures Valid() && created == old(created)
      ensures View() == Apply(old(View()), id, ReadyEvent)
    {
    }

    /** The `auth_failure` handler drops both entries of `id`. */
    method OnAuthFailure(id: string)
      requires Valid() && id in created
      modifies this
      ensures Valid() && created == old(created)
      ensures View() == Apply(old(View()), id, AuthFailureEvent)
    {
      clients := clients - {id};
      qrCodes := qrCodes - {id};
    }

    /** The `disconnected` handler drops both entries of `id`. */
    method OnDisconnected(id: string)
      requires Valid() && id in created
      modifies this
      ensures Valid() && created == old(created)
      ensures View() == Apply(old(View()), id, DisconnectedEvent)
    {
      clients := clients - {id};
      qrCodes := qrCodes - {id};
    }

    /**
     * POST /instance: after the key check, the freshly generated id is
     * initialised and echoed back with the key. The generator's value is a
     * parameter and is not assumed to be new.
     */
    method CreateInstance(apiKey: Option<string>, newId: string, initializeRejects: bool)
      returns (response: Response, calls: seq<ClientCall>)
      requires Valid()
      modifies this
      ensures Valid()
      ensures !Authorized(apiKey) ==>
                response == Unauthorized() && calls == [] && View() == old(View()) && created == old(created)
      ensures Authorized(apiKey) ==>
                && newId in clients && clients[newId].clientId == newId
                && clients - {newId} == old(clients) - {newId} && qrCodes == old(qrCodes)
                && (old(newId in clients) ==> View() == old(View()))
                && (old(newId !in clients) ==> fresh(clients[newId]))
      ensures Authorized(apiKey) ==>
                calls == if old(newId in clients) then [] else [InitializeCall(clients[newId])]
      ensures Authorized(apiKey) ==>
                response == if old(newId !in clients) && initializeRejects then NoReply
                            else Reply(200, InstanceBody(newId, STATIC_API_KEY))
    {
      calls := [];
      if !Authorized(apiKey) {
        return Unauthorized(), calls;
      }
      var isNew := newId !in clients;
      var result := InitializeClient(newId, initializeRejects);
      if isNew {
        calls := [InitializeCall(clients[newId])];
      }
      if result == Rejected {
        response := NoReply;
      } else {
        response := Reply(200, InstanceBody(newId, apiKey.value));
      }
    }

    /** GET /qr/:instanceId: the stored pairing artifact, if it is truthy. */
    method GetQr(apiKey: Option<string>, id: string) returns (response: Response)
      ensures !Authorized(apiKey) ==> response == Unauthorized()
      ensures response.Reply? && response.status == 200 <==>
                Authorized(apiKey) && id in qrCodes && qrCodes[id] != ""
      ensures response.Reply? && response.status == 200 ==> response.body == QrBody(qrCodes[id])
      ensures Authorized(apiKey) && !(id in qrCodes && qrCodes[id] != "") ==>
                response == Reply(400, ErrorBody(QR_NOT_AVAILABLE))
    {
      if !Authorized(apiKey) {
        return Unauthorized();
      }
      if Truthy(View().QrOf(id)) {
        response := Reply(200, QrBody(qrCodes[id]));
      } else {
        response := Reply(400, ErrorBody(QR_NOT_AVAILABLE));
      }
    }

    /**
     * POST /send/:instanceId: key, then fields, then lookup; only then is
     * the client's `sendMessage` called with the normalised chat id, and a
     * rejection of it (carrying `sendRejection` as its message) becomes 500.
     */
    method Send(apiKey: Option<string>, id: string, number: Option<string>, message: Option<string>,
                sendRejection: Option<string>)
      returns (response: Response, calls: seq<ClientCall>)
      ensures response.Reply?
      ensures !Authorized(apiKey) ==> response == Unauthorized() && calls == []
      ensures Authorized(apiKey) && !(Truthy(number) && Truthy(message)) ==>
                response == Reply(400, ErrorBody(NUMBER_AND_MESSAGE_REQUIRED)) && calls == []
      ensures Authorized(apiKey) && Truthy(number) && Truthy(message) && id !in clients ==>
                response == Reply(400, ErrorBody(CLIENT_NOT_INITIALIZED)) && calls == []
      ensures calls != [] <==> Authorized(apiKey) && Truthy(number) && Truthy(message) && id in clients
      ensures calls != [] ==>
                && calls == [SendMessageCall(clients[id], ChatId(number.value), message.value)]
                && Includes(calls[0].chatId, CONTACT_SUFFIX)
                && response == (if sendRejection.Some? then Reply(500, ErrorBody(sendRejection.value))
                                else Reply(200, SuccessBody))
    {
      calls := [];
      if !Authorized(apiKey) {
        return Unauthorized(), calls;
      }
      if !Truthy(number) || !Truthy(message) {
        return Reply(400, ErrorBody(NUMBER_AND_MESSAGE_REQUIRED)), calls;
      }
      if id !in clients {
        return Reply(400, ErrorBody(CLIENT_NOT_INITIALIZED)), calls;
      }
      var client := clients[id];
      var chatId := ChatId(number.value);
      calls := [SendMessageCall(client, chatId, message.value)];
      if sendRejection.Some? {
        response := Reply(500, ErrorBody(sendRejection.value));
      } else {
        response := Reply(200, SuccessBody);
      }
    }

    /**
     * POST /logout/:instanceId: a known client is logged out, both entries
     * are dropped, and the same client object is initialised again without
     * being awaited or stored back. A rejected `logout()` ends the handler
     * before anything is dropped.
     */
    method Logout(apiKey: Option<string>, id: string, logoutRejects: bool)
      returns (response: Response, calls: seq<ClientCall>)
      requires Valid()
      modifies this
      ensures Valid() && created == old(created)
      ensures !Authorized(apiKey) ==> response == Unauthorized() && calls == [] && View() == old(View())
      ensures Authorized(apiKey) && id !in old(clients) ==>
                response == Reply(400, ErrorBody(CLIENT_NOT_FOUND)) && calls == [] && View() == old(View())
      ensures Authorized(apiKey) && id in old(clients) && logoutRejects ==>
                response == NoReply && calls == [LogoutCall(old(clients[id]))] && View() == old(View())
      ensures Authorized(apiKey) && id in old(clients) && !logoutRejects ==>
                && response == Reply(200, SuccessBody)
                && calls == [LogoutCall(old(clients[id])), InitializeCall(old(clients[id]))]
                && View() == Remove(old(View()), id)
    {
      calls := [];
      if !Authorized(apiKey) {
        return Unauthorized(), calls;
      }
      if id !in clients {
        return Reply(400, ErrorBody(CLIENT_NOT_FOUND)), calls;
      }
      var client := clients[id];
      calls := [LogoutCall(client)];
      if logoutRejects {
        return NoReply, calls;
      }
      clients := clients - {id};
      qrCodes := qrCodes - {id};
      calls := calls + [InitializeCall(client)];
      response := Reply(200, SuccessBody);
    }
  }
}
