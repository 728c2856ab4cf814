/**
 How the three programs fit together: the relay's messages as the receiver
 reads them, the receiver's messages as the relay routes them, and the
 sender's messages as the relay and the receiver expect them.
 */
module Scenario {
  import opened Messages
  import opened Relay
  import ReceiverClient
  import opened SenderClient

  /** The receiver's offer request reaches the sender it names, unchanged. */
  lemma RequestOfferRouted(senders: map<Id, Link>, receiverId: Json, sid: Id)
    requires sid in senders
    ensures RouteReceiverText(ReceiverClient.RequestOffer(receiverId, Str(sid)), senders)
            == Deliver(Delivery(sid, ReceiverClient.RequestOffer(receiverId, Str(sid))))
  {
  }

  /** The receiver's answer reaches the sender it names, unchanged. */
  lemma AnswerRouted(senders: map<Id, Link>, sid: Id, receiverId: Json, answer: SessionDescription)
    requires sid in senders
    ensures RouteReceiverText(ReceiverClient.AnswerMessage(Str(sid), receiverId, answer), senders)
            == Deliver(Delivery(sid, ReceiverClient.AnswerMessage(Str(sid), receiverId, answer)))
  {
  }

  /**
   An offer the relay forwards to receiver `rid` is accepted by a receiver
   registered as `rid`, which answers the sender it remembers.
   */
  lemma ForwardedOfferAccepted(s: ReceiverClient.State, sid: Id, rid: Id, offer: SessionDescription)
    requires s.receiverId == Str(rid) && rid != "" && s.senderId.Some?
    ensures ReceiverClient.Step(s, ForwardedOffer(sid, rid, DescriptionJson(offer)))
            == ReceiverClient.Continue(s, Some(ReceiverClient.StartReceiving(s.senderId.value, Str(rid), DescriptionJson(offer).fields)))
  {
  }

  /**
   Finding, as written: the offer of sender.py:28-36 has no `receiver_id`, so
   server.py:38 raises and the relay ends the sender's session; nothing is
   delivered, whichever receivers are registered.
   */
  lemma OfferAsWrittenEndsSession(r: Registry, sid: Id, offer: SessionDescription, r': Registry, out: seq<Delivery>)
    requires Step(r, SenderText(sid, OfferAsWritten(offer)), r', out)
    ensures out == [] && r' == Registry(r.senders - {sid}, r.receivers)
  {
  }

  /** Finding, corrected: the offer addressed to the requesting receiver is delivered to it. */
  lemma OfferReplyDelivered(receivers: map<Id, Link>, sid: Id, rid: Id, offer: SessionDescription)
    requires rid in receivers
    ensures RouteSenderText(sid, OfferReply(ReceiverClient.RequestOffer(Str(rid), Str(sid)), offer), receivers)
            == Deliver(Delivery(rid, ForwardedOffer(sid, rid, DescriptionJson(offer))))
  {
  }

  /**
   Finding, as written: sender.py:63-64 looks for the answer's description at
   the top level, where receiver.py:64-71 does not put it; the `sdp` it reads
   is `None`.
   */
  lemma AnswerAsWrittenLosesSdp(senderId: Json, receiverId: Json, answer: SessionDescription)
    ensures AnswerAsWritten(ReceiverClient.AnswerMessage(senderId, receiverId, answer)) == (Null, Str("answer"))
  {
  }

  /** Finding, corrected: reading under `answer` gives back the receiver's description. */
  lemma AnswerRoundTrip(senderId: Json, receiverId: Json, answer: SessionDescription)
    ensures ReadAnswer(ReceiverClient.AnswerMessage(senderId, receiverId, answer)) == Some(answer)
  {
  }

  /** Registered as R and told of S1 and then S2, the receiver has asked S1 and remembers S2. */
  lemma SecondSenderOverwrites(s1: Id, s2: Id, rid: Id)
    ensures ReceiverClient.Run([ReceiverRegistered(rid), SenderAvailable(s1), SenderAvailable(s2)])
            == ReceiverClient.Session(ReceiverClient.State(Str(rid), Some(Str(s2)), true),
                                      [ReceiverClient.Send(ReceiverClient.RequestOffer(Str(rid), Str(s1)))], false)
  {
    var inbox := [ReceiverRegistered(rid), SenderAvailable(s1), SenderAvailable(s2)];
    ReceiverRequestsOffer(s1, rid);
    assert inbox[..2] == [ReceiverRegistered(rid), SenderAvailable(s1)];
    ReceiverClient.RunSnoc(inbox, 2);
    assert inbox[..3] == inbox;
  }

  /**
   Finding, as written: with two senders announced, the receiver asks the
   first, S1, for an offer, but the second announcement overwrites
   `sender_id` (receiver.py:93). When S1's offer arrives the receiver starts
   receiving "from" S2, so its answer is addressed to S2, and the relay
   routes it there (server.py:94-99), to a sender that never made an offer.
   The offer is the one the relay forwards for an addressed offer from S1
   (`OfferReply`): with sender.py's own offer, S1's session ends at the
   relay and no offer reaches the receiver (`OfferAsWrittenEndsSession`).
   */
  lemma AnswerToLaterSender(s1: Id, s2: Id, rid: Id, senders: map<Id, Link>, receivers: map<Id, Link>,
                            offer: SessionDescription, answer: SessionDescription)
    requires rid != "" && s1 != s2 && s2 in senders && rid in receivers
    ensures RouteSenderText(s1, OfferReply(ReceiverClient.RequestOffer(Str(rid), Str(s1)), offer), receivers)
            == Deliver(Delivery(rid, ForwardedOffer(s1, rid, DescriptionJson(offer))))
    ensures ReceiverClient.Run([ReceiverRegistered(rid), SenderAvailable(s1), SenderAvailable(s2),
                                ForwardedOffer(s1, rid, DescriptionJson(offer))]).actions
            == [ReceiverClient.Send(ReceiverClient.RequestOffer(Str(rid), Str(s1))),
                ReceiverClient.StartReceiving(Str(s2), Str(rid), DescriptionJson(offer).fields)]
    ensures RouteReceiverText(ReceiverClient.AnswerMessage(Str(s2), Str(rid), answer), senders)
            == Deliver(Delivery(s2, ReceiverClient.AnswerMessage(Str(s2), Str(rid), answer)))
  {
    var announced := [ReceiverRegistered(rid), SenderAvailable(s1), SenderAvailable(s2)];
    var forwarded := ForwardedOffer(s1, rid, DescriptionJson(offer));
    SecondSenderOverwrites(s1, s2, rid);
    ForwardedOfferAccepted(ReceiverClient.State(Str(rid), Some(Str(s2)), true), s1, rid, offer);
    ReceiverClient.RunAppend(announced, forwarded);
    OfferReplyDelivered(receivers, s1, rid, offer);
    assert announced + [forwarded] == [ReceiverRegistered(rid), SenderAvailable(s1), SenderAvailable(s2), forwarded];
    AnswerRouted(senders, s2, Str(rid), answer);
  }

  /**
   Finding, corrected: a receiver that takes the sender from the offer starts
   receiving from the sender whose offer the relay forwarded, whichever sender
   it last heard of, and its answer goes back to that sender.
   */
  lemma CorrectedAnswersOfferer(s: ReceiverClient.State, sid: Id, rid: Id, senders: map<Id, Link>,
                                offer: SessionDescription, answer: SessionDescription)
    requires s.receiverId == Str(rid) && rid != "" && sid in senders
    ensures ReceiverClient.CorrectedStep(s, ForwardedOffer(sid, rid, DescriptionJson(offer)))
            == ReceiverClient.Continue(s, Some(ReceiverClient.StartReceiving(Str(sid), Str(rid), DescriptionJson(offer).fields)))
    ensures RouteReceiverText(ReceiverClient.AnswerMessage(Str(sid), Str(rid), answer), senders)
            == Deliver(Delivery(sid, ReceiverClient.AnswerMessage(Str(sid), Str(rid), answer)))
  {
    AnswerRouted(senders, sid, Str(rid), answer);
  }

  /** Corrected, in the two-sender run: S1's offer makes the receiver start receiving from S1. */
  lemma CorrectedTwoSenders(s1: Id, s2: Id, rid: Id, offer: SessionDescription)
    requires rid != ""
    ensures var st := ReceiverClient.Run([ReceiverRegistered(rid), SenderAvailable(s1), SenderAvailable(s2)]).state;
            ReceiverClient.CorrectedStep(st, ForwardedOffer(s1, rid, DescriptionJson(offer)))
            == ReceiverClient.Continue(st, Some(ReceiverClient.StartReceiving(Str(s1), Str(rid), DescriptionJson(offer).fields)))
  {
    SecondSenderOverwrites(s1, s2, rid);
    CorrectedAnswersOfferer(ReceiverClient.State(Str(rid), Some(Str(s2)), true), s1, rid, map[s1 := Link(0)],
                            offer, SessionDescription("answer", ""));
  }

  /** From an empty relay, sender S and then receiver R connect; R is told of S alone. */
  lemma HandshakeConnect(sid: Id, rid: Id, senderLink: Link, receiverLink: Link,
                         r1: Registry, out1: seq<Delivery>, r2: Registry, out2: seq<Delivery>)
    requires Step(Registry(map[], map[]), SenderConnect(sid, senderLink), r1, out1)
    requires Step(r1, ReceiverConnect(rid, receiverLink), r2, out2)
    ensures out1 == [Delivery(sid, SenderRegistered(sid))]
    ensures out2 == [Delivery(rid, ReceiverRegistered(rid)), Delivery(rid, SenderAvailable(sid))]
    ensures r2 == Registry(map[sid := senderLink], map[rid := receiverLink])
  {
    ReceiverConnectAnnounces(r1, rid, receiverLink, r2, out2);
    assert r1.senders.Keys == {sid};
    assert Delivery(rid, SenderAvailable(sid)) in out2[1..];
    assert out2[1] == Delivery(rid, SenderAvailable(sid));
  }

  /** The receiver, registered as R and told of S, asks S for an offer. */
  lemma ReceiverRequestsOffer(sid: Id, rid: Id)
    ensures ReceiverClient.Run([ReceiverRegistered(rid), SenderAvailable(sid)])
            == ReceiverClient.Session(ReceiverClient.State(Str(rid), Some(Str(sid)), true),
                                      [ReceiverClient.Send(ReceiverClient.RequestOffer(Str(rid), Str(sid)))], false)
  {
    var inbox := [ReceiverRegistered(rid), SenderAvailable(sid)];
    ReceiverClient.RunSnoc(inbox, 0);
    ReceiverClient.RunSnoc(inbox, 1);
    assert inbox[..0] == [];
    assert inbox[..2] == inbox;
  }

  /** Then S's offer, forwarded by the relay, makes it start receiving from S. */
  lemma ReceiverAcceptsOffer(sid: Id, rid: Id, offer: SessionDescription)
    requires rid != ""
    ensures ReceiverClient.Run([ReceiverRegistered(rid), SenderAvailable(sid), ForwardedOffer(sid, rid, DescriptionJson(offer))]).actions
            == [ReceiverClient.Send(ReceiverClient.RequestOffer(Str(rid), Str(sid))),
                ReceiverClient.StartReceiving(Str(sid), Str(rid), DescriptionJson(offer).fields)]
  {
    var inbox := [ReceiverRegistered(rid), SenderAvailable(sid), ForwardedOffer(sid, rid, DescriptionJson(offer))];
    ReceiverRequestsOffer(sid, rid);
    ReceiverClient.RunSnoc(inbox, 2);
    assert inbox[..2] == [ReceiverRegistered(rid), SenderAvailable(sid)];
    assert inbox[..3] == inbox;
    ForwardedOfferAccepted(ReceiverClient.State(Str(rid), Some(Str(sid)), true), sid, rid, offer);
  }

  /**
   The whole handshake from an empty relay, with the corrected sender
   (`OfferReply`, `ReadAnswer`): sender S and receiver R connect, R is told of
   S and asks it for an offer, S's offer reaches R, R starts receiving from S,
   and R's answer reaches S with its description intact. With sender.py as
   written the handshake stops at the offer, which ends S's session
   (`OfferAsWrittenEndsSession`).
   */
  lemma Handshake(sid: Id, rid: Id, senderLink: Link, receiverLink: Link,
                  offer: SessionDescription, answer: SessionDescription,
                  r1: Registry, out1: seq<Delivery>, r2: Registry, out2: seq<Delivery>)
    requires rid != ""
    requires Step(Registry(map[], map[]), SenderConnect(sid, senderLink), r1, out1)
    requires Step(r1, ReceiverConnect(rid, receiverLink), r2, out2)
    ensures out2 == [Delivery(rid, ReceiverRegistered(rid)), Delivery(rid, SenderAvailable(sid))]
    ensures ReceiverClient.Run([ReceiverRegistered(rid), SenderAvailable(sid)]).actions
            == [ReceiverClient.Send(ReceiverClient.RequestOffer(Str(rid), Str(sid)))]
    ensures RouteReceiverText(ReceiverClient.RequestOffer(Str(rid), Str(sid)), r2.senders)
            == Deliver(Delivery(sid, ReceiverClient.RequestOffer(Str(rid), Str(sid))))
    ensures RouteSenderText(sid, OfferReply(ReceiverClient.RequestOffer(Str(rid), Str(sid)), offer), r2.receivers)
            == Deliver(Delivery(rid, ForwardedOffer(sid, rid, DescriptionJson(offer))))
    ensures ReceiverClient.Run([ReceiverRegistered(rid), SenderAvailable(sid), ForwardedOffer(sid, rid, DescriptionJson(offer))]).actions
            == [ReceiverClient.Send(ReceiverClient.RequestOffer(Str(rid), Str(sid))),
                ReceiverClient.StartReceiving(Str(sid), Str(rid), DescriptionJson(offer).fields)]
    ensures RouteReceiverText(ReceiverClient.AnswerMessage(Str(sid), Str(rid), answer), r2.senders)
            == Deliver(Delivery(sid, ReceiverClient.AnswerMessage(Str(sid), Str(rid), answer)))
    ensures ReadAnswer(ReceiverClient.AnswerMessage(Str(sid), Str(rid), answer)) == Some(answer)
  {
    HandshakeConnect(sid, rid, senderLink, receiverLink, r1, out1, r2, out2);
    ReceiverRequestsOffer(sid, rid);
    ReceiverAcceptsOffer(sid, rid, offer);
    RequestOfferRouted(r2.senders, Str(rid), sid);
    OfferReplyDelivered(r2.receivers, sid, rid, offer);
    AnswerRouted(r2.senders, sid, Str(rid), answer);
  }
}
