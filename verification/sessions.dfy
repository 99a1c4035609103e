/**
 * The registry as a value: the two dictionaries keyed by instance id, the
 * lifecycle events a client emits, and what each event does to them.
 */
module Sessions {
  import opened Wrappers

  /**
   * One external messaging client. The library is opaque here: a client is
   * an object identity plus the id its local auth strategy was built with.
   */
  class Client {
    const clientId: string

    constructor (clientId: string)
      ensures this.clientId == clientId
    {
      this.clientId := clientId;
    }
  }

  /** The contents of `clients` and `qrCodes`. */
  datatype Entries = Entries(clients: map<string, Client>, qrCodes: map<string, string>)
  {
    function ClientOf(id: string): Option<Client>
    {
      if id in clients then Some(clients[id]) else None
    }

    function QrOf(id: string): Option<string>
    {
      if id in qrCodes then Some(qrCodes[id]) else None
    }
  }

  /**
   * A lifecycle event of one client. A `qr` event carries the outcome of
   * rendering its code into a data URL: `None` when rendering failed.
   */
  datatype Event =
    | QrEvent(rendered: Option<string>)
    | ReadyEvent
    | AuthFailureEvent
    | DisconnectedEvent

  /** Both dictionaries agree on every id other than `id`. */
  ghost predicate AgreeExcept(r: Entries, t: Entries, id: string)
  {
    r.clients - {id} == t.clients - {id} && r.qrCodes - {id} == t.qrCodes - {id}
  }

  /** Every entry of `a` is an entry of `b`. */
  ghost predicate SubMap(a: map<string, Client>, b: map<string, Client>)
  {
    forall k :: k in a ==> k in b && a[k] == b[k]
  }

  /** `delete clients[id]; delete qrCodes[id]`. */
  function Remove(r: Entries, id: string): (t: Entries)
    ensures t.ClientOf(id) == None && t.QrOf(id) == None
    ensures AgreeExcept(r, t, id)
    ensures id !in r.clients && id !in r.qrCodes ==> t == r
  {
    Entries(r.clients - {id}, r.qrCodes - {id})
  }

  /** The effect of a handler registered for client `id` on event `e`. */
  function Apply(r: Entries, id: string, e: Event): (t: Entries)
    ensures AgreeExcept(r, t, id)
    ensures SubMap(t.clients, r.clients)
    ensures e.QrEvent? ==> t.clients == r.clients
    ensures e.QrEvent? && e.rendered.Some? ==> t.QrOf(id) == e.rendered
    ensures e == QrEvent(None) || e == ReadyEvent ==> t == r
    ensures e == AuthFailureEvent || e == DisconnectedEvent ==>
              t.ClientOf(id) == None && t.QrOf(id) == None
  {
    match e
    case QrEvent(rendered) =>
      if rendered.Some? then Entries(r.clients, r.qrCodes[id := rendered.value]) else r
    case ReadyEvent => r
    case AuthFailureEvent => Remove(r, id)
    case DisconnectedEvent => Remove(r, id)
  }

  /** A removal event for an id that has no entries leaves everything as it is. */
  lemma RemovalIdempotent(r: Entries, id: string, e: Event)
    requires e == AuthFailureEvent || e == DisconnectedEvent
    ensures Apply(Apply(r, id, e), id, e) == Apply(r, id, e)
    ensures r.ClientOf(id) == None && r.QrOf(id) == None ==> Apply(r, id, e) == r
  {
  }

  /** Authentication failure and disconnection clean up identically. */
  lemma RemovalEventsAgree(r: Entries, id: string)
    ensures Apply(r, id, AuthFailureEvent) == Apply(r, id, DisconnectedEvent) == Remove(r, id)
  {
  }

  /** A successful rendering replaces the earlier one: only the last is kept. */
  lemma QrOverwrites(r: Entries, id: string, first: string, second: string)
    ensures Apply(Apply(r, id, QrEvent(Some(first))), id, QrEvent(Some(second)))
            == Apply(r, id, QrEvent(Some(second)))
  {
  }

  /**
   * After a logout has removed the entries, the re-initialised client can
   * still emit `qr`, leaving a pairing artifact with no client entry: the
   * keys of `qrCodes` are not always keys of `clients`.
   */
  lemma QrAfterRemovalIsOrphaned(r: Entries, id: string, url: string)
    ensures var t := Apply(Remove(r, id), id, QrEvent(Some(url)));
            t.QrOf(id) == Some(url) && t.ClientOf(id) == None
  {
  }

  /** The entries after the events of `trace` are handled in order. */
  function Run(r: Entries, trace: seq<(string, Event)>): (t: Entries)
    ensures SubMap(t.clients, r.clients)
    decreases |trace|
  {
    if trace == [] then r
    else
      var last := trace[|trace| - 1];
      Apply(Run(r, trace[..|trace| - 1]), last.0, last.1)
  }

  /** Events of other clients never touch the entries of `id`. */
  lemma {:induction false} RunKeepsOtherIds(r: Entries, trace: seq<(string, Event)>, id: string)
    requires forall i :: 0 <= i < |trace| ==> trace[i].0 != id
    ensures Run(r, trace).ClientOf(id) == r.ClientOf(id)
    ensures Run(r, trace).QrOf(id) == r.QrOf(id)
    decreases |trace|
  {
    if trace != [] {
      var front := trace[..|trace| - 1];
      RunKeepsOtherIds(r, front, id);
      var s := Run(r, front);
      var t := Apply(s, trace[|trace| - 1].0, trace[|trace| - 1].1);
      assert id in s.clients <==> id in (s.clients - {trace[|trace| - 1].0});
      assert id in t.clients <==> id in (t.clients - {trace[|trace| - 1].0});
      assert id in s.qrCodes <==> id in (s.qrCodes - {trace[|trace| - 1].0});
      assert id in t.qrCodes <==> id in (t.qrCodes - {trace[|trace| - 1].0});
    }
  }

  /**
   * The last event of client `id` in a trace decides its entries: a
   * successful rendering is the pairing artifact served, and an
   * authentication failure or disconnection leaves neither entry.
   */
  lemma {:induction false} RunLastEventDecides(r: Entries, trace: seq<(string, Event)>, id: string, k: nat)
    requires k < |trace| && trace[k].0 == id
    requires forall j :: k < j < |trace| ==> trace[j].0 != id
    ensures trace[k].1.QrEvent? && trace[k].1.rendered.Some? ==>
              Run(r, trace).QrOf(id) == trace[k].1.rendered
    ensures trace[k].1 == AuthFailureEvent || trace[k].1 == DisconnectedEvent ==>
              Run(r, trace).ClientOf(id) == None && Run(r, trace).QrOf(id) == None
    decreases |trace|
  {
    var front := trace[..|trace| - 1];
    if k < |trace| - 1 {
      RunLastEventDecides(r, front, id, k);
      var s := Run(r, front);
      var other := trace[|trace| - 1].0;
      var t := Apply(s, other, trace[|trace| - 1].1);
      assert id in s.clients <==> id in (s.clients - {other});
      assert id in t.clients <==> id in (t.clients - {other});
      assert id in s.qrCodes <==> id in (s.qrCodes - {other});
      assert id in t.qrCodes <==> id in (t.qrCodes - {other});
    }
  }

  /**
   * Every pairing artifact present after a trace was either there before
   * it or was rendered by a `qr` event of that same client.
   */
  lemma {:induction false} RunQrProvenance(r: Entries, trace: seq<(string, Event)>, id: string)
    requires id in Run(r, trace).qrCodes
    ensures || r.QrOf(id) == Run(r, trace).QrOf(id)
            || exists i :: 0 <= i < |trace| && trace[i] == (id, QrEvent(Run(r, trace).QrOf(id)))
    decreases |trace|
  {
    if trace != [] {
      var n := |trace| - 1;
      var front := trace[..n];
      var s := Run(r, front);
      var t := Run(r, trace);
      var (other, e) := trace[n];
      if other == id && e.QrEvent? && e.rendered.Some? {
        assert trace[n] == (id, QrEvent(t.QrOf(id)));
      } else {
        assert t.QrOf(id) == s.QrOf(id) by {
          if other != id {
            assert id in s.qrCodes <==> id in (s.qrCodes - {other});
            assert id in t.qrCodes <==> id in (t.qrCodes - {other});
          }
        }
        RunQrProvenance(r, front, id);
        if r.QrOf(id) != t.QrOf(id) {
          var i :| 0 <= i < |front| && front[i] == (id, QrEvent(s.QrOf(id)));
          assert trace[i] == front[i];
        }
      }
    }
  }
}
