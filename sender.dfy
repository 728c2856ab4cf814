/**
 The two messages of the sender peer (sender.py) that meet the relay and the
 receiver: the offer it sends and the answer it reads. Both are kept as the
 file writes them and as the rest of the protocol expects them.
 */
module SenderClient {
  import opened Messages

  /** `send_offer` as written (sender.py:28-36): the offer names no receiver. */
  function OfferAsWritten(offer: SessionDescription): Msg
  {
    map["type" := Str("offer"), "offer" := DescriptionJson(offer)]
  }

  /** The offer as the relay needs it: addressed to the receiver that asked for it. */
  function OfferReply(request: Msg, offer: SessionDescription): Msg
  {
    map["type" := Str("offer"), "receiver_id" := Get(request, "receiver_id"),
        "offer" := DescriptionJson(offer)]
  }

  /** How sender.py:63-64 reads an answer: the top-level `sdp` and `type` fields. */
  function AnswerAsWritten(data: Msg): (sdpAndType: (Json, Json))
  {
    (Get(data, "sdp"), Get(data, "type"))
  }

  /** Reading the answer where the receiver puts it, under `answer`. */
  function ReadAnswer(data: Msg): Option<SessionDescription>
  {
    DescriptionOf(Get(data, "answer"))
  }
}
