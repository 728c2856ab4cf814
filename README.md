# WebRTC signaling relay — a Dafny model

This project models the signaling side of a small WebRTC demo. A relay (`server.py`) keeps
two registries of connected peers, `senders` and `receivers`, each mapping a peer id to that
peer's websocket. It registers each new peer under a fresh id. It tells each new receiver
about every sender already connected. It forwards a sender's `offer` to the receiver the
offer names, and a receiver's `answer` or `request_offer` to the sender it names. When a
session's read loop ends, normally or by an exception, the relay unregisters that session's
id. The one exception to this is a receiver whose announcements fail (see Left out). A receiver peer (`receiver.py`) reads
the relay's messages in a loop. It remembers its own id and the last announced sender. It
asks the first announced sender for an offer, and starts receiving video when an offer
addressed to it arrives.

Files:

- `messages.dfy` (module `Messages`): decoded JSON values and the control messages built from them.
- `relay.dfy` (module `Relay`): the relay.
  - The routing decisions are pure functions.
  - The transition relation `Step` covers the six events: sender or receiver connect, text, and close.
  - The lemmas state what each event does, plus the invariants that hold over any interleaving of events.
  - The class `Server` has the two registries as fields and one method per handler step, each proved against `Step`.
- `receiver.dfy` (module `ReceiverClient`): the receiver's dispatch loop.
  - `Step` is one turn of the loop and `Run` is the loop over a whole inbox.
  - The method `WebsocketHandler` runs the loop over the locals `receiver_id`, `sender_id` and `receiving`, and is proved equal to `Run`.
- `sender.dfy` (module `SenderClient`): the sender's offer and its reading of the answer, as written and as corrected (see Findings).
- `scenario.dfy` (module `Scenario`): how the three programs fit together, up to the whole handshake.

Modelling choices:

- A message is a JSON object (`map<string, Json>`). So the model tells apart `data.get(k)`, which gives `None` when `k` is absent, from `data[k]`, which raises. It also keeps a JSON `null` apart from an absent key, and forwarding "verbatim" means forwarding the same value.
- Each handler step between two `await`s is one atomic event on the shared registry. Concurrent sessions are any interleaving of such events (`Relay.Execution`).
- Every exception the source can raise inside a read loop is one outcome. In the relay it is `Abort`, and the `finally` then unregisters the source session's id. In the receiver it is `Crash`, after which no further message is read. Such exceptions are a `KeyError` on a missing field or unknown id, a `TypeError` from `None['ws']`, or an unbound local.
- Command-line arguments, sockets, clocks and randomness are not modelled. The fresh uuid4 id is a parameter that must be in neither registry. A link is an opaque handle.

The model follows the code where it differs from the protocol's intended behaviour:

- The intent is that an unroutable message is dropped and the source connection stays open. In the code, an `offer` to an unknown receiver raises at server.py:39. An `answer` or `request_offer` naming an unknown or missing sender raises at server.py:97-98 (a `TypeError` at server.py:97 when `sender_id` is unhashable, else at server.py:98). In both cases the source session ends and its id is unregistered.
- The intent is that unregistering an absent id is a no-op. The code uses `del` (server.py:59, 109), which would raise. Only a session's own handler ever deletes its id, so in the model a close requires the id to be live.
- The intent includes a `sender_exit` notification and the announcement of new senders to existing receivers. The code does neither: the notification is commented out (server.py:60-64) and the announcement is a TODO (server.py:29). Neither is modelled.
- In the relay, a missing `type` is only logged (`data.get('type')`). The receiver client reads `data['type']`, so there a message without `type` ends its loop.

## Model

| member | source | states |
|---|---|---|
| `Relay.RouteSenderText` | server.py:32-52 | an `offer` goes to the registered receiver its `receiver_id` names, re-packed with the session's own sender id and the payload unchanged; a missing `offer` or unknown receiver aborts; every other or missing `type` is ignored |
| `Relay.RouteReceiverText` | server.py:90-103 | an `answer` or `request_offer` goes unchanged to the registered sender its `sender_id` names; a missing or unknown sender aborts; every other or missing `type` is ignored |
| `Relay.Step` | server.py:15-109 | defines the relay's transition relation: the registry after each of the six handler steps (connect, text message, close, for either role) and what that step sends. It has no contract of its own; the lemmas below state its properties |
| `Relay.EnumerationSize` | server.py:82 | one pass over `senders.items()`, with no id twice, lists as many ids as there are senders |
| `Relay.ConnectDeliveries` | server.py:74-87 | a receiver's connect deliveries all go to it: `registered`, then one `sender` announcement per listed sender, with no duplicates |
| `Relay.SenderConnectEffect` | server.py:21-29 | a sender connecting gets `registered{sender_id}` alone; its id is added with its link; nothing goes to any receiver; `receivers` is unchanged |
| `Relay.ReceiverConnectAnnounces` | server.py:73-87 | a receiver connecting gets `registered` first, then exactly one `sender` announcement per registered sender (as many as there are senders), each sender once |
| `Relay.ReceiverConnectRegisters` | server.py:73-80 | a receiver connecting is added under its fresh id with its link; `senders` and the other receivers are unchanged |
| `Relay.OfferDelivered` | server.py:36-48 | an offer from a live sender to a registered receiver yields exactly one delivery, to that receiver, of `{type: offer, sender_id: session id, receiver_id, offer}`; the registry is unchanged |
| `Relay.AnswerDelivered` | server.py:94-99 | an `answer` or `request_offer` naming a live sender yields exactly one delivery, to that sender, of the identical message; the registry is unchanged |
| `Relay.UnknownTypeIgnored` | server.py:49-52 | any other or missing `type`, from either role (also server.py:100-103), delivers nothing and leaves both maps unchanged |
| `Relay.UnroutableEndsSession` | server.py:37-59 | an offer to an unknown receiver, or an answer or offer request to an unknown or missing sender (server.py:96-98), delivers nothing and removes exactly the source session's id (server.py:108-109 for receivers) |
| `Relay.CloseRemovesOwnId` | server.py:57-59 | closing a session (also server.py:108-109) removes exactly its own id from its role's map; every other entry of both maps is unchanged |
| `Relay.StepDeliversToLive` | server.py:39-48 | every delivery goes to a peer that is live after the event; offers go only to receivers, answers and offer requests only to senders, connect messages only to the new peer |
| `Relay.StepPreservesDisjoint` | server.py:8-10 | given fresh ids, every event keeps the sender ids and receiver ids disjoint |
| `Relay.NoEcho` | server.py:36-48 | with disjoint registries, a routed message never goes back to the session it came from |
| `Relay.ExecutionInvariant` | server.py:8-10 | over any interleaving of events from disjoint registries (the empty ones at start-up), the registries stay disjoint and every delivery goes to a live peer |
| `Relay.Server.constructor` | server.py:8-10 | both registries start empty |
| `Relay.Server.ConnectSender` | server.py:21-28 | sends `registered` and inserts the fresh sender, as `Step` says |
| `Relay.Server.ConnectReceiver` | server.py:73-87 | sends `registered`, inserts the fresh receiver, and loops over the senders sending one announcement per sender, as `Step` says |
| `Relay.Server.OnSenderText` | server.py:31-59 | handles one sender text message: forwards, ignores, or ends the session and deletes its id, as `Step` says |
| `Relay.Server.OnReceiverText` | server.py:89-109 | handles one receiver text message: forwards, ignores, or ends the session and deletes its id, as `Step` says |
| `Relay.Server.CloseSender` | server.py:57-59 | deletes exactly the closing sender's id |
| `Relay.Server.CloseReceiver` | server.py:108-109 | deletes exactly the closing receiver's id |
| `ReceiverClient.Step` | receiver.py:87-121 | a turn that goes on sets `receiving` exactly when it was set or the message is a `sender` announcement; it sends a message only on the first announcement, and that message is `request_offer{receiver_id, sender_id}`; a message without `type` raises |
| `ReceiverClient.StepRaises` | receiver.py:88-117 | a turn raises exactly when one of these holds: `type` is missing; `registered` has no `receiver_id`; `sender` has no `sender_id`, whether or not the loop is receiving; or an offer addressed to this receiver has a missing or non-object `offer`, or arrives while `sender_id` is unbound |
| `ReceiverClient.RequestOffer` | receiver.py:102-106 | defines the offer request `{type: request_offer, receiver_id, sender_id}`. It has no contract; `Step`, `RequestNamesFirstSender` and `Scenario.RequestOfferRouted` state what it carries and where it goes |
| `ReceiverClient.AnswerMessage` | receiver.py:64-71 | defines the answer `{type: answer, sender_id, receiver_id, answer: {type, sdp}}`. It has no contract; `Scenario.AnswerRouted` and `Scenario.AnswerRoundTrip` state where it goes and that its description reads back |
| `ReceiverClient.CorrectedStep` | receiver.py:116-119 | corrected turn (see Findings): a turn that starts receiving does so for an offer addressed to this receiver, from that offer's own `sender_id`; an addressed offer leaves the locals unchanged, and raises exactly when `offer` is missing or not an object or `sender_id` is missing; every other message is handled exactly as `Step` handles it |
| `ReceiverClient.RegisteredStoresId` | receiver.py:89-91 | `registered` sets `receiver_id` to the message's `receiver_id` and sends nothing; without that field it raises |
| `ReceiverClient.SenderMsgRemembered` | receiver.py:92-106 | every `sender` message updates the remembered `sender_id`, even when it is otherwise ignored; while not receiving it sends exactly one `request_offer{receiver_id, sender_id}` and sets `receiving` |
| `ReceiverClient.SenderIgnoredWhileReceiving` | receiver.py:98-99 | once receiving, a `sender` message sends nothing and changes only the remembered sender id |
| `ReceiverClient.OfferFiltered` | receiver.py:107-115 | an offer is ignored, with no action and no change, when `receiver_id` is unset (falsy) or differs from the offer's `receiver_id` |
| `ReceiverClient.MatchingOfferStartsReceiving` | receiver.py:116-119 | a matching offer starts receiving with the remembered `sender_id`, not the offer's own, and changes no local |
| `ReceiverClient.UnknownTypeIgnored` | receiver.py:120-121 | an unknown `type` sends nothing and changes no state |
| `ReceiverClient.Run` | receiver.py:86-121 | over any inbox, the loop has sent one message if `receiving` is set and none otherwise |
| `ReceiverClient.AtMostOneRequestOffer` | receiver.py:98-106 | over any message sequence at most one `request_offer` is sent |
| `ReceiverClient.CrashIsFinal` | receiver.py:86-88 | after an exception the loop reads no further message: nothing more is done |
| `ReceiverClient.ReceivingIffSenderSeen` | receiver.py:92-101 | while the loop runs, `receiving` holds exactly when some `sender` message has been read |
| `ReceiverClient.RequestNamesFirstSender` | receiver.py:92-106 | the offer request, if any, names the sender id of the first `sender` message read: only the first sender is asked |
| `ReceiverClient.HandleMessage` | receiver.py:87-121 | one pass of the loop body on the locals does what `Step` says, raising exactly when `Step` does |
| `ReceiverClient.WebsocketHandler` | receiver.py:77-121 | the loop over the inbox produces exactly `Run`'s actions and stops exactly where `Run` raises; it sends at most one offer request |
| `Messages.SenderRegistered` | server.py:22-25 | defines the `registered{sender_id}` message a new sender gets; `Relay.SenderConnectEffect` states when it is sent |
| `Messages.ReceiverRegistered` | server.py:74-77 | defines the `registered{receiver_id}` message a new receiver gets; `Relay.ReceiverConnectAnnounces` states when it is sent |
| `Messages.SenderAvailable` | server.py:84-87 | defines the `sender{sender_id}` announcement; `Relay.SenderAvailableInjective` states that distinct ids give distinct announcements |
| `Messages.ForwardedOffer` | server.py:43-48 | defines the offer as the relay re-packs it; `Relay.OfferDelivered` states when it is sent and `Scenario.ForwardedOfferAccepted` what the receiver does with it |
| `Messages.DescriptionOf` | receiver.py:64-71 | reading a `{type, sdp}` object back gives the description it was built from; whatever it reads came from an object holding both fields |
| `Relay.SenderAvailableInjective` | server.py:84-87 | two announcements are equal only for the same sender id |
| `SenderClient.OfferAsWritten` | sender.py:28-36 | defines the offer as sender.py builds it: `{type: offer, offer: {sdp, type}}`, with no `receiver_id`; `Scenario.OfferAsWrittenEndsSession` states its effect |
| `SenderClient.OfferReply` | sender.py:28-36 | defines the corrected offer, which also carries the requesting receiver's `receiver_id`; `Scenario.OfferReplyDelivered` states its effect |
| `SenderClient.AnswerAsWritten` | sender.py:62-64 | defines the flat read of `sdp` and `type`; `Scenario.AnswerAsWrittenLosesSdp` states what it yields |
| `SenderClient.ReadAnswer` | sender.py:62-64 | defines the corrected read under `answer`; `Scenario.AnswerRoundTrip` states that it gives back the receiver's description |
| `Scenario.RequestOfferRouted` | receiver.py:102-106 | the receiver's offer request reaches the sender it names, unchanged, through the relay (server.py:94-99) |
| `Scenario.AnswerRouted` | receiver.py:64-71 | the receiver's answer reaches the sender it names, unchanged, through the relay (server.py:94-99) |
| `Scenario.ForwardedOfferAccepted` | server.py:43-48 | an offer the relay forwards to receiver R is accepted by the receiver registered as R, which starts receiving from the sender it remembers (receiver.py:107-119) |
| `Scenario.OfferAsWrittenEndsSession` | sender.py:28-36 | the sender's offer as written has no `receiver_id`, so the relay ends that sender's session and delivers nothing |
| `Scenario.OfferReplyDelivered` | sender.py:28-36 | an offer addressed to the receiver that requested it is delivered to that receiver with the payload unchanged |
| `Scenario.AnswerAsWrittenLosesSdp` | sender.py:62-64 | reading the answer's flat `sdp` and `type`, as sender.py does, gives `sdp = None` for the answer receiver.py builds |
| `Scenario.AnswerRoundTrip` | receiver.py:64-71 | the answer has the shape `{type: answer, sender_id, receiver_id, answer: {type, sdp}}`: reading it back under `answer` gives the engine's description |
| `Scenario.HandshakeConnect` | server.py:21-87 | from an empty relay, a sender then a receiver connect: the sender gets `registered`, the receiver gets `registered` and one announcement of that sender |
| `Scenario.ReceiverRequestsOffer` | receiver.py:89-106 | after `registered{R}` and `sender{S}` the receiver has sent `request_offer{R, S}` and is receiving |
| `Scenario.ReceiverAcceptsOffer` | receiver.py:107-119 | then the offer forwarded from S starts receiving from S with S's offer |
| `Scenario.SecondSenderOverwrites` | receiver.py:92-106 | after `registered{R}`, `sender{S1}`, `sender{S2}` the receiver has asked S1 for an offer and remembers S2 |
| `Scenario.AnswerToLaterSender` | receiver.py:116-119 | as written (see Findings): the relay forwards S1's addressed offer to R, that offer starts receiving "from" S2, and the resulting answer is routed to S2 (server.py:94-99) |
| `Scenario.CorrectedAnswersOfferer` | receiver.py:116-119 | corrected: from any state of a receiver registered as R, the offer forwarded from S starts receiving from S, and the answer is routed back to S |
| `Scenario.CorrectedTwoSenders` | receiver.py:92-119 | corrected, in the two-sender run: S1's offer starts receiving from S1 |
| `Scenario.Handshake` | server.py:15-109 | the full handshake with the corrected sender of the Findings (`OfferReply`, `ReadAnswer`): connect, announce, request, offer, start receiving, answer. Each message reaches its peer with its payload intact. With sender.py as written the handshake stops at the offer (`Scenario.OfferAsWrittenEndsSession`) |

## Left out

- aiohttp transport (`WebSocketResponse`, `prepare`, `send_json`, `ws_connect`, `web.run_app`, server.py:15-20, 116-119). Each send is a `Delivery(target, msg)` in an output list instead. A send that fails because the peer is gone is not modelled.
- The `WSMsgType.ERROR` and non-TEXT branches (server.py:53-56, 104-107) and all `print` logging. They only log.
- `uuid.uuid4`. The fresh id is a parameter, and a connect requires it to be in neither registry.
- `json.loads`. Messages arrive decoded as JSON objects. JSON numbers, booleans and arrays are not represented, so Python's equalities between them (`1 == True`) do not arise. A frame that does not decode to an object is not modelled.
- Concurrency inside one handler step. Each step is atomic, which has two consequences:
  - The `await` between sending `registered` and inserting the new peer (server.py:22-26, 74-78) is merged into one step.
  - The `await` inside the `for ... in senders.items()` loop is also merged. The model therefore does not capture the `RuntimeError` Python raises when another session changes `senders` during that iteration.
- A failure inside the announcement loop (server.py:82-87). The loop runs after the receiver is registered (server.py:78) and before the `try` (server.py:89). So when it raises, either the `RuntimeError` above or a failed `send_json` at server.py:84, the `finally` at server.py:108-109 never runs, and the receiver's id stays in `receivers` for good with a dead link. The model's receiver connect is atomic and always succeeds, and every id leaves its registry only by its own close or abort. So "live" in `Relay.Live` and `Relay.ExecutionInvariant` means registered, not connected.
- The order of the announcements. The source sends them in the dict's insertion order of `senders` (server.py:82). `Relay.Step` allows any duplicate-free order of the registered senders, and the lemmas hold for every such order.
- What aiohttp does with an exception that leaves a handler, such as logging it and closing the socket. The model stops at "the session ends and its id is unregistered".
- The `sender_exit` broadcast (server.py:60-64, commented out) and the announcement of new senders (server.py:29, a TODO). Neither is implemented in the source.
- All media in receiver.py: `RTCPeerConnection`, offer and answer creation, `handle_track` and its PNG writes, and the poll on `connectionState` (receiver.py:14-63, 73-74). `receive_video` appears only through the answer it sends (`AnswerMessage`). That answer is sent by a separate task, so it is not interleaved with the loop's own actions.
- `RTCSessionDescription(**data['offer'])` (receiver.py:116). The model raises when `offer` is missing or is not a JSON object. It does not model aiortc rejecting an object with other keys or an unknown `type` value. The offer object is carried unchanged in `StartReceiving`.
- sender.py, apart from the offer it sends and how it reads the answer. Its camera capture (sender.py:10-25) and its aiortc calls (sender.py:51-66) are left out.

## Findings

| source | as written | input that shows it | evidently intended | confidence | as-written member | corrected member |
|---|---|---|---|---|---|---|
| sender.py:28-36 | `send_offer` sends `{type: offer, offer}` with no `receiver_id`; server.py:38 reads `data['receiver_id']` | any offer the sender sends, e.g. after `request_offer{receiver_id: R, sender_id: S}` | the offer names the receiver that asked for it, so the relay can deliver it | not executed; high (the key is read unconditionally) | `Scenario.OfferAsWrittenEndsSession` (`SenderClient.OfferAsWritten`) | `Scenario.OfferReplyDelivered` (`SenderClient.OfferReply`) |
| receiver.py:93 | every `sender` message overwrites `sender_id`, even once receiving, and the matching offer (receiver.py:116-119) starts receiving from that remembered id rather than from the offer's own `sender_id` | `registered{R}`, `sender{S1}`, `sender{S2}`, then S1's forwarded offer: the receiver asked S1, but starts receiving from S2, and its answer is routed to S2 | the answer goes to the sender that made the offer (the offer's `sender_id`, or the first sender, which is the one asked) | not executed; high, but reachable only once the sender.py:28-36 defect is fixed: two senders connected before the receiver, then an addressed offer from S1 (sender.py as written ends S1's session instead) | `Scenario.AnswerToLaterSender` (`ReceiverClient.Step`) | `Scenario.CorrectedAnswersOfferer`, `Scenario.CorrectedTwoSenders` (`ReceiverClient.CorrectedStep`); the loop model `Run`/`WebsocketHandler` keeps the code as written, because it is the modelled program |
| sender.py:62-64 | the answer is read as flat `data.get('sdp')`, `data.get('type')` | the answer receiver.py:64-71 sends, which nests `{type, sdp}` under `answer`: sender.py reads `sdp = None` | the description is read from under `answer` | not executed; high | `Scenario.AnswerAsWrittenLosesSdp` (`SenderClient.AnswerAsWritten`) | `Scenario.AnswerRoundTrip` (`SenderClient.ReadAnswer`) |
