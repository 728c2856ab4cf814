/**
 The signaling relay of server.py: two registries of live peers and the
 handlers that register peers, route offers, answers and offer requests
 between them, and unregister peers when their sessions end.

 Every handler step between two awaits is one atomic event on the shared
 registry; concurrent sessions are an interleaving of such events.
 */
module Relay {
  import opened Messages

  /** A peer id, `str(uuid4())` in the source. */
  type Id = string

  /** The peer's websocket, as the registry stores it (`{'ws': ws}`). */
  datatype Link = Link(socket: nat)

  /** The module-level dicts `senders` and `receivers` (server.py:8-10). */
  datatype Registry = Registry(senders: map<Id, Link>, receivers: map<Id, Link>)

  /** One `send_json` call: the message and the peer whose websocket it goes out on. */
  datatype Delivery = Delivery(target: Id, msg: Msg)

  /** What a session handler does with one inbound text message. */
  datatype Routing =
    | Deliver(d: Delivery)   // forward it to one peer
    | Ignore                 // unknown or missing `type`: log and go on
    | Abort                  // an exception leaves the read loop: the session ends

  datatype Event =
    | SenderConnect(id: Id, link: Link)
    | ReceiverConnect(id: Id, link: Link)
    | SenderText(sid: Id, data: Msg)
    | ReceiverText(rid: Id, data: Msg)
    | SenderClose(sid: Id)
    | ReceiverClose(rid: Id)

  /** `id` is held by no live peer of either role: what a fresh uuid4 gives. */
  predicate Fresh(r: Registry, id: Id)
  {
    id !in r.senders && id !in r.receivers
  }

  /** No id is registered as a sender and as a receiver at once. */
  predicate Disjoint(r: Registry)
  {
    r.senders.Keys !! r.receivers.Keys
  }

  /** Is `id` a live peer of either role? */
  predicate Live(r: Registry, id: Id)
  {
    id in r.senders || id in r.receivers
  }

  /**
   Does a key taken from a message name a registered id? Subscripting the
   dict with any other key raises (a KeyError, or a TypeError when the key
   is unhashable).
   */
  predicate Names(key: Json, registry: map<Id, Link>)
  {
    key.Str? && key.s in registry
  }

  /**
   The read loop of a sender session (server.py:32-52): an `offer` goes to the
   receiver it names, re-packed with the session's own sender id; a missing
   `offer` field or an unregistered `receiver_id` raises (server.py:37-39);
   every other or missing `type` is only logged.
   */
  function RouteSenderText(sid: Id, data: Msg, receivers: map<Id, Link>): (r: Routing)
    ensures r.Ignore? <==> Get(data, "type") != Str("offer")
    ensures r.Abort? <==>
      Get(data, "type") == Str("offer")
      && ("offer" !in data || !(Get(data, "receiver_id").Str? && Get(data, "receiver_id").s in receivers))
    ensures r.Deliver? ==>
      && r.d.target in receivers
      && Get(data, "receiver_id") == Str(r.d.target)
      && "offer" in data
      && r.d.msg == ForwardedOffer(sid, r.d.target, data["offer"])
  {
    if Get(data, "type") != Str("offer") then Ignore
    else if "offer" !in data then Abort
    else
      var key := Get(data, "receiver_id");
      if Names(key, receivers) then Deliver(Delivery(key.s, ForwardedOffer(sid, key.s, data["offer"])))
      else Abort
  }

  /** The two message types a receiver may send to a sender (server.py:94). */
  predicate ForwardedToSender(data: Msg)
  {
    Get(data, "type") == Str("answer") || Get(data, "type") == Str("request_offer")
  }

  /**
   The read loop of a receiver session (server.py:90-103): an `answer` or a
   `request_offer` goes unchanged to the sender it names; a missing or
   unregistered `sender_id` makes `senders.get(...)['ws']` raise (server.py:96-98);
   every other or missing `type` is only logged.
   */
  function RouteReceiverText(data: Msg, senders: map<Id, Link>): (r: Routing)
    ensures r.Ignore? <==> !ForwardedToSender(data)
    ensures r.Abort? <==>
      ForwardedToSender(data) && !(Get(data, "sender_id").Str? && Get(data, "sender_id").s in senders)
    ensures r.Deliver? ==>
      && r.d.target in senders
      && Get(data, "sender_id") == Str(r.d.target)
      && r.d.msg == data
  {
    if !ForwardedToSender(data) then Ignore
    else
      var key := Get(data, "sender_id");
      if Names(key, senders) then Deliver(Delivery(key.s, data)) else Abort
  }

  /** One `sender` announcement to receiver `rid` per id of `ids`, in that order. */
  function Announcements(rid: Id, ids: seq<Id>): seq<Delivery>
  {
    seq(|ids|, i requires 0 <= i < |ids| => Delivery(rid, SenderAvailable(ids[i])))
  }

  /** `ids` lists every element of `keys` exactly once: one pass of `dict.items()`. */
  ghost predicate Enumerates(ids: seq<Id>, keys: set<Id>)
  {
    && (forall i, j :: 0 <= i < j < |ids| ==> ids[i] != ids[j])
    && (forall x :: x in ids <==> x in keys)
  }

  /** A session that ends, normally or by an exception, unregisters its own id (`finally`). */
  function Unregistered(r: Registry, id: Id, isSender: bool): Registry
  {
    if isSender then r.(senders := r.senders - {id}) else r.(receivers := r.receivers - {id})
  }

  /** How a read-loop step applies its routing decision to the registry. */
  ghost predicate Routed(r: Registry, routing: Routing, id: Id, isSender: bool, r': Registry, out: seq<Delivery>)
  {
    match routing
    case Deliver(d) => r' == r && out == [d]
    case Ignore => r' == r && out == []
    case Abort => r' == Unregistered(r, id, isSender) && out == []
  }

  /**
   The relay's transition relation: from registry `r`, event `e` may lead to
   registry `r'` with the deliveries `out`. Only a fresh id can connect, and
   only a live session receives text or closes. The announcements of
   ReceiverConnect come in the dict's iteration order, which is left open.
   */
  ghost predicate Step(r: Registry, e: Event, r': Registry, out: seq<Delivery>)
  {
    match e
    case SenderConnect(id, link) =>
      && Fresh(r, id)
      && r' == r.(senders := r.senders[id := link])
      && out == [Delivery(id, SenderRegistered(id))]
    case ReceiverConnect(id, link) =>
      && Fresh(r, id)
      && r' == r.(receivers := r.receivers[id := link])
      && exists ids :: Enumerates(ids, r.senders.Keys)
                       && out == [Delivery(id, ReceiverRegistered(id))] + Announcements(id, ids)
    case SenderText(sid, data) =>
      sid in r.senders && Routed(r, RouteSenderText(sid, data, r.receivers), sid, true, r', out)
    case ReceiverText(rid, data) =>
      rid in r.receivers && Routed(r, RouteReceiverText(data, r.senders), rid, false, r', out)
    case SenderClose(sid) =>
      sid in r.senders && r' == Unregistered(r, sid, true) && out == []
    case ReceiverClose(rid) =>
      rid in r.receivers && r' == Unregistered(r, rid, false) && out == []
  }

  /** A duplicate-free listing has as many entries as the set it lists. */
  lemma {:induction false} EnumerationSize(ids: seq<Id>, keys: set<Id>)
    requires Enumerates(ids, keys)
    ensures |ids| == |keys|
  {
    if ids != [] {
      var last := ids[|ids| - 1];
      var front := ids[..|ids| - 1];
      assert forall x :: x in front <==> x in keys - {last} by {
        forall x ensures x in front <==> x in keys - {last} {
          if x in front {
            var i :| 0 <= i < |front| && front[i] == x;
            assert ids[i] == x && i < |ids| - 1;
          }
          if x in keys - {last} {
            assert x in ids;
            var i :| 0 <= i < |ids| && ids[i] == x;
            assert i != |ids| - 1;
            assert front[i] == x;
          }
        }
      }
      EnumerationSize(front, keys - {last});
      assert last in keys by { assert ids[|ids| - 1] == last; }
    }
  }

  lemma SenderConnectEffect(r: Registry, id: Id, link: Link, r': Registry, out: seq<Delivery>)
    requires Step(r, SenderConnect(id, link), r', out)
    ensures out == [Delivery(id, SenderRegistered(id))]
    ensures r'.senders.Keys == r.senders.Keys + {id} && r'.senders[id] == link
    ensures forall x :: x in r.senders ==> x in r'.senders && r'.senders[x] == r.senders[x]
    ensures r'.receivers == r.receivers
    ensures forall d :: d in out ==> d.target !in r'.receivers
  {
  }

  /** Distinct sender ids give distinct announcements. */
  lemma SenderAvailableInjective(a: Id, b: Id)
    ensures SenderAvailable(a) == SenderAvailable(b) ==> a == b
  {
    if SenderAvailable(a) == SenderAvailable(b) {
      assert SenderAvailable(a)["sender_id"] == Str(a);
    }
  }

  /** The announcements name exactly the listed senders, each as often as it is listed. */
  lemma AnnouncementsName(rid: Id, ids: seq<Id>)
    ensures forall sid :: sid in ids <==> Delivery(rid, SenderAvailable(sid)) in Announcements(rid, ids)
    ensures (forall i, j :: 0 <= i < j < |ids| ==> ids[i] != ids[j]) ==>
            forall j, k :: 0 <= j < k < |ids| ==> Announcements(rid, ids)[j] != Announcements(rid, ids)[k]
  {
    var ds := Announcements(rid, ids);
    forall sid | Delivery(rid, SenderAvailable(sid)) in ds ensures sid in ids {
      var k :| 0 <= k < |ds| && ds[k] == Delivery(rid, SenderAvailable(sid));
      SenderAvailableInjective(ids[k], sid);
    }
    forall sid | sid in ids ensures Delivery(rid, SenderAvailable(sid)) in ds {
      var k :| 0 <= k < |ids| && ids[k] == sid;
      assert ds[k] == Delivery(rid, SenderAvailable(sid));
    }
    forall j, k | 0 <= j < k < |ids| && ids[j] != ids[k] ensures ds[j] != ds[k] {
      SenderAvailableInjective(ids[j], ids[k]);
    }
  }

  /** The deliveries of a receiver connect, for one listing `ids` of the senders. */
  lemma ConnectDeliveries(id: Id, ids: seq<Id>, keys: set<Id>, out: seq<Delivery>)
    requires Enumerates(ids, keys)
    requires out == [Delivery(id, ReceiverRegistered(id))] + Announcements(id, ids)
    ensures |out| == 1 + |keys|
    ensures forall k :: 0 <= k < |out| ==> out[k].target == id
    ensures forall sid :: sid in keys <==> Delivery(id, SenderAvailable(sid)) in out[1..]
    ensures forall j, k :: 1 <= j < k < |out| ==> out[j] != out[k]
  {
    var ds := Announcements(id, ids);
    EnumerationSize(ids, keys);
    AnnouncementsName(id, ids);
    assert out[1..] == ds;
    forall j, k | 1 <= j < k < |out| ensures out[j] != out[k] {
      assert out[j] == ds[j - 1] && out[k] == ds[k - 1];
    }
    forall k | 0 <= k < |out| ensures out[k].target == id {
      if k > 0 { assert out[k] == ds[k - 1]; }
    }
  }

  /**
   A receiver that connects gets `registered` first and then exactly one
   `sender` announcement per registered sender, each sender once.
   */
  lemma ReceiverConnectAnnounces(r: Registry, id: Id, link: Link, r': Registry, out: seq<Delivery>)
    requires Step(r, ReceiverConnect(id, link), r', out)
    ensures |out| == 1 + |r.senders|
    ensures out[0] == Delivery(id, ReceiverRegistered(id))
    ensures forall k :: 0 <= k < |out| ==> out[k].target == id
    ensures forall sid :: sid in r.senders <==> Delivery(id, SenderAvailable(sid)) in out[1..]
    ensures forall j, k :: 1 <= j < k < |out| ==> out[j] != out[k]
  {
    var ids :| Enumerates(ids, r.senders.Keys)
               && out == [Delivery(id, ReceiverRegistered(id))] + Announcements(id, ids);
    ConnectDeliveries(id, ids, r.senders.Keys, out);
  }

  /** A receiver that connects is added under its fresh id; the senders are unchanged. */
  lemma ReceiverConnectRegisters(r: Registry, id: Id, link: Link, r': Registry, out: seq<Delivery>)
    requires Step(r, ReceiverConnect(id, link), r', out)
    ensures id !in r.receivers && id !in r.senders
    ensures r'.senders == r.senders
    ensures r'.receivers.Keys == r.receivers.Keys + {id} && r'.receivers[id] == link
    ensures forall x :: x in r.receivers ==> r'.receivers[x] == r.receivers[x]
  {
  }

  /**
   An offer from a live sender to a registered receiver is delivered once, to
   that receiver, with the session's sender id and the offer payload unchanged;
   the registry is unchanged.
   */
  lemma OfferDelivered(r: Registry, sid: Id, rid: Id, data: Msg, r': Registry, out: seq<Delivery>)
    requires sid in r.senders && rid in r.receivers
    requires Get(data, "type") == Str("offer") && "offer" in data && Get(data, "receiver_id") == Str(rid)
    ensures Step(r, SenderText(sid, data), r', out) <==>
            r' == r && out == [Delivery(rid, ForwardedOffer(sid, rid, data["offer"]))]
  {
  }

  /** An answer or offer request naming a live sender reaches that sender unchanged. */
  lemma AnswerDelivered(r: Registry, rid: Id, sid: Id, data: Msg, r': Registry, out: seq<Delivery>)
    requires rid in r.receivers && sid in r.senders
    requires ForwardedToSender(data) && Get(data, "sender_id") == Str(sid)
    ensures Step(r, ReceiverText(rid, data), r', out) <==> r' == r && out == [Delivery(sid, data)]
  {
  }

  /** Any other or missing `type`, from either role, delivers nothing and changes nothing. */
  lemma UnknownTypeIgnored(r: Registry, e: Event, r': Registry, out: seq<Delivery>)
    requires Step(r, e, r', out)
    requires (e.SenderText? && Get(e.data, "type") != Str("offer"))
          || (e.ReceiverText? && !ForwardedToSender(e.data))
    ensures r' == r && out == []
  {
  }

  /**
   An offer to an unknown receiver, or an answer or offer request to an
   unknown or missing sender, ends the source session: nothing is delivered
   and exactly the source's own id is unregistered.
   */
  lemma UnroutableEndsSession(r: Registry, e: Event, r': Registry, out: seq<Delivery>)
    requires Step(r, e, r', out)
    requires (e.SenderText? && Get(e.data, "type") == Str("offer")
              && !Names(Get(e.data, "receiver_id"), r.receivers))
          || (e.ReceiverText? && ForwardedToSender(e.data)
              && !Names(Get(e.data, "sender_id"), r.senders))
    ensures out == []
    ensures e.SenderText? ==> r' == Registry(r.senders - {e.sid}, r.receivers)
    ensures e.ReceiverText? ==> r' == Registry(r.senders, r.receivers - {e.rid})
  {
  }

  /** Closing a session removes exactly its own id; every other entry of both maps stays. */
  lemma CloseRemovesOwnId(r: Registry, e: Event, r': Registry, out: seq<Delivery>)
    requires Step(r, e, r', out)
    requires e.SenderClose? || e.ReceiverClose?
    ensures out == []
    ensures e.SenderClose? ==> e.sid in r.senders && e.sid !in r'.senders
    ensures e.ReceiverClose? ==> e.rid in r.receivers && e.rid !in r'.receivers
    ensures forall x :: x in r'.senders ==> x in r.senders && r'.senders[x] == r.senders[x]
    ensures forall x :: x in r'.receivers ==> x in r.receivers && r'.receivers[x] == r.receivers[x]
    ensures e.SenderClose? ==> r'.senders.Keys == r.senders.Keys - {e.sid} && r'.receivers == r.receivers
    ensures e.ReceiverClose? ==> r'.receivers.Keys == r.receivers.Keys - {e.rid} && r'.senders == r.senders
  {
  }

  /**
   Every delivery of a step goes to a peer that is live after the step:
   offers go only to receivers, answers and offer requests only to senders,
   and connect messages only to the peer that connects.
   */
  lemma StepDeliversToLive(r: Registry, e: Event, r': Registry, out: seq<Delivery>)
    requires Step(r, e, r', out)
    ensures forall d :: d in out ==> Live(r', d.target)
    ensures e.SenderText? ==> forall d :: d in out ==> d.target in r.receivers
    ensures e.ReceiverText? ==> forall d :: d in out ==> d.target in r.senders
    ensures e.SenderConnect? ==> forall d :: d in out ==> d.target == e.id
    ensures e.ReceiverConnect? ==> forall d :: d in out ==> d.target == e.id
  {
  }

  /** Every event keeps the sender and receiver ids apart. */
  lemma StepPreservesDisjoint(r: Registry, e: Event, r': Registry, out: seq<Delivery>)
    requires Disjoint(r) && Step(r, e, r', out)
    ensures Disjoint(r')
  {
  }

  /** With disjoint registries, a routed text message never goes back to its own source. */
  lemma NoEcho(r: Registry, e: Event, r': Registry, out: seq<Delivery>)
    requires Disjoint(r) && Step(r, e, r', out)
    ensures e.SenderText? ==> forall d :: d in out ==> d.target != e.sid
    ensures e.ReceiverText? ==> forall d :: d in out ==> d.target != e.rid
  {
  }

  /** `regs[i]` leads to `regs[i + 1]` by `events[i]`, delivering `outs[i]`. */
  ghost predicate Execution(regs: seq<Registry>, events: seq<Event>, outs: seq<seq<Delivery>>)
  {
    && |regs| == |events| + 1
    && |outs| == |events|
    && forall i :: 0 <= i < |events| ==> Step(regs[i], events[i], regs[i + 1], outs[i])
  }

  /**
   Over any interleaving of events from disjoint registries, in particular
   from the empty ones at start-up, the registries stay disjoint and every
   delivery goes to a peer that is live when it is sent.
   */
  lemma {:induction false} ExecutionInvariant(regs: seq<Registry>, events: seq<Event>, outs: seq<seq<Delivery>>)
    requires Execution(regs, events, outs) && Disjoint(regs[0])
    ensures forall i :: 0 <= i < |regs| ==> Disjoint(regs[i])
    ensures forall i, d :: 0 <= i < |events| && d in outs[i] ==> Live(regs[i + 1], d.target)
    decreases |events|
  {
    if events != [] {
      var n := |events| - 1;
      assert Execution(regs[..n + 1], events[..n], outs[..n]) by {
        forall i | 0 <= i < n ensures Step(regs[..n + 1][i], events[..n][i], regs[..n + 1][i + 1], outs[..n][i]) {
          assert Step(regs[i], events[i], regs[i + 1], outs[i]);
        }
      }
      ExecutionInvariant(regs[..n + 1], events[..n], outs[..n]);
      assert Disjoint(regs[..n + 1][n]);
      StepPreservesDisjoint(regs[n], events[n], regs[n + 1], outs[n]);
      StepDeliversToLive(regs[n], events[n], regs[n + 1], outs[n]);
      forall i | 0 <= i < |regs| ensures Disjoint(regs[i]) {
        if i <= n { assert regs[i] == regs[..n + 1][i]; }
      }
      forall i, d | 0 <= i < |events| && d in outs[i] ensures Live(regs[i + 1], d.target) {
        if i < n {
          assert outs[i] == outs[..n][i] && regs[i + 1] == regs[..n + 1][i + 1];
        }
      }
    }
  }

  /** The relay process: the two registries as fields that its handlers update in place. */
  class Server {
    var senders: map<Id, Link>
    var receivers: map<Id, Link>

    function Snapshot(): Registry
      reads this
    {
      Registry(senders, receivers)
    }

    /** Start-up: both registries empty (server.py:8-10). */
    constructor ()
      ensures Snapshot() == Registry(map[], map[])
    {
      senders := map[];
      receivers := map[];
    }

    /** A sender connects with fresh id `id` (server.py:21-28). */
    method ConnectSender(id: Id, link: Link) returns (out: seq<Delivery>)
      requires Fresh(Snapshot(), id)
      modifies this
      ensures Step(old(Snapshot()), SenderConnect(id, link), Snapshot(), out)
    {
      out := [Delivery(id, SenderRegistered(id))];
      senders := senders[id := link];
    }

    /** A receiver connects with fresh id `id` and is told of every sender (server.py:73-87). */
    method ConnectReceiver(id: Id, link: Link) returns (out: seq<Delivery>)
      requires Fresh(Snapshot(), id)
      modifies this
      ensures Step(old(Snapshot()), ReceiverConnect(id, link), Snapshot(), out)
    {
      out := [Delivery(id, ReceiverRegistered(id))];
      receivers := receivers[id := link];
      var pending := senders.Keys;
      ghost var ids: seq<Id> := [];
      while pending != {}
        invariant pending <= senders.Keys
        invariant forall x :: x in ids <==> x in senders.Keys - pending
        invariant forall i, j :: 0 <= i < j < |ids| ==> ids[i] != ids[j]
        invariant out == [Delivery(id, ReceiverRegistered(id))] + Announcements(id, ids)
        decreases pending
      {
        var sid :| sid in pending;
        assert sid !in ids;
        assert Announcements(id, ids + [sid]) == Announcements(id, ids) + [Delivery(id, SenderAvailable(sid))];
        out := out + [Delivery(id, SenderAvailable(sid))];
        ids := ids + [sid];
        pending := pending - {sid};
      }
      assert Enumerates(ids, old(senders).Keys);
    }

    /** One text message on sender session `sid` (server.py:33-52, 57-59). */
    method OnSenderText(sid: Id, data: Msg) returns (out: seq<Delivery>)
      requires sid in senders
      modifies this
      ensures Step(old(Snapshot()), SenderText(sid, data), Snapshot(), out)
    {
      out := [];
      if Get(data, "type") == Str("offer") {
        if "offer" !in data {
          senders := senders - {sid};
          return;
        }
        var offer := data["offer"];
        var key := Get(data, "receiver_id");
        if Names(key, receivers) {
          out := [Delivery(key.s, ForwardedOffer(sid, key.s, offer))];
        } else {
          senders := senders - {sid};
        }
      }
    }

    /** One text message on receiver session `rid` (server.py:91-103, 108-109). */
    method OnReceiverText(rid: Id, data: Msg) returns (out: seq<Delivery>)
      requires rid in receivers
      modifies this
      ensures Step(old(Snapshot()), ReceiverText(rid, data), Snapshot(), out)
    {
      out := [];
      var dataType := Get(data, "type");
      if dataType == Str("answer") || dataType == Str("request_offer") {
        var key := Get(data, "sender_id");
        if Names(key, senders) {
          out := [Delivery(key.s, data)];
        } else {
          receivers := receivers - {rid};
        }
      }
    }

    /** Sender session `sid` ends (server.py:57-59). */
    method CloseSender(sid: Id) returns (out: seq<Delivery>)
      requires sid in senders
      modifies this
      ensures Step(old(Snapshot()), SenderClose(sid), Snapshot(), out)
    {
      out := [];
      senders := senders - {sid};
    }

    /** Receiver session `rid` ends (server.py:108-109). */
    method CloseReceiver(rid: Id) returns (out: seq<Delivery>)
      requires rid in receivers
      modifies this
      ensures Step(old(Snapshot()), ReceiverClose(rid), Snapshot(), out)
    {
      out := [];
      receivers := receivers - {rid};
    }
  }
}
