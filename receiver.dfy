/**
 The receiver peer's dispatch loop (`websocket_handler` in receiver.py): it
 reads the relay's messages one by one, remembers its own id and the last
 announced sender, asks the first announced sender for an offer, and starts
 receiving video when an offer addressed to it arrives.
 */
module ReceiverClient {
  import opened Messages

  /**
   The loop's locals: `receiver_id` (None until registered), `sender_id`
   (`None` here while the Python local is still unbound) and `receiving`.
   */
  datatype State = State(receiverId: Json, senderId: Option<Json>, receiving: bool)

  /** The locals before the first message (receiver.py:80-81). */
  const Initial := State(Null, None, false)

  /** What one message makes the loop do. */
  datatype Action =
    | Send(msg: Msg)                             // `ws.send_json(...)`
    | StartReceiving(senderId: Json, receiverId: Json, offer: map<string, Json>)
                                                 // `create_task(receive_video(...))`

  /** One turn of the loop: new locals and at most one action, or an exception that ends it. */
  datatype StepResult = Continue(next: State, action: Option<Action>) | Crash

  /** The offer request sent to the chosen sender (receiver.py:102-106). */
  function RequestOffer(receiverId: Json, senderId: Json): Msg
  {
    map["type" := Str("request_offer"), "receiver_id" := receiverId, "sender_id" := senderId]
  }

  /**
   The answer `receive_video` sends back once the media engine has answered
   the offer (receiver.py:64-71); `answer` is the engine's local description.
   */
  function AnswerMessage(senderId: Json, receiverId: Json, answer: SessionDescription): Msg
  {
    map["type" := Str("answer"), "sender_id" := senderId, "receiver_id" := receiverId,
        "answer" := DescriptionJson(answer)]
  }

  predicate IsSenderMsg(data: Msg)
  {
    Get(data, "type") == Str("sender")
  }

  /** Does this turn send a message on the websocket? */
  predicate Sends(a: Option<Action>)
  {
    a.Some? && a.value.Send?
  }

  /**
   One turn of the loop (receiver.py:87-121). Subscripting a missing key
   (`data['type']`, `data['receiver_id']`, `data['sender_id']`, `data['offer']`),
   unpacking a non-object offer, or reading `sender_id` before any sender
   was announced raises and ends the loop.
   */
  function Step(s: State, data: Msg): (r: StepResult)
    ensures "type" !in data ==> r.Crash?
    ensures r.Continue? ==> r.next.receiving == (s.receiving || IsSenderMsg(data))
    ensures r.Continue? && IsSenderMsg(data) && !s.receiving ==> Sends(r.action)
    ensures r.Continue? && Sends(r.action) ==>
      && !s.receiving && IsSenderMsg(data) && "sender_id" in data
      && r.action.value.msg == RequestOffer(s.receiverId, data["sender_id"])
  {
    if "type" !in data then Crash
    else
      var dataType := data["type"];
      if dataType == Str("registered") then
        if "receiver_id" in data then Continue(s.(receiverId := data["receiver_id"]), None)
        else Crash
      else if dataType == Str("sender") then
        if "sender_id" !in data then Crash
        else
          var remembered := s.(senderId := Some(data["sender_id"]));
          if s.receiving then Continue(remembered, None)
          else Continue(remembered.(receiving := true),
                        Some(Send(RequestOffer(s.receiverId, data["sender_id"]))))
      else if dataType == Str("offer") then
        if Falsy(s.receiverId) || Get(data, "receiver_id") != s.receiverId then Continue(s, None)
        else if "offer" !in data || !data["offer"].Object? || s.senderId.None? then Crash
        else Continue(s, Some(StartReceiving(s.senderId.value, s.receiverId, data["offer"].fields)))
      else Continue(s, None)
  }

  /** `registered` stores the message's `receiver_id` and sends nothing (receiver.py:89-91). */
  lemma RegisteredStoresId(s: State, data: Msg)
    requires Get(data, "type") == Str("registered")
    ensures Step(s, data).Crash? <==> "receiver_id" !in data
    ensures "receiver_id" in data ==> Step(s, data) == Continue(s.(receiverId := data["receiver_id"]), None)
  {
  }

  /**
   A `sender` message always replaces the remembered sender id, even when it
   is otherwise ignored; while not yet receiving it sends exactly one offer
   request and sets `receiving` (receiver.py:92-106).
   */
  lemma SenderMsgRemembered(s: State, data: Msg)
    requires IsSenderMsg(data) && "sender_id" in data
    ensures Step(s, data).Continue?
    ensures Step(s, data).next.senderId == Some(data["sender_id"])
    ensures Step(s, data).next.receiving && Step(s, data).next.receiverId == s.receiverId
    ensures Sends(Step(s, data).action) <==> !s.receiving
    ensures !s.receiving ==> Step(s, data).action == Some(Send(RequestOffer(s.receiverId, data["sender_id"])))
  {
  }

  /** Once receiving, a `sender` message sends nothing (receiver.py:98-99). */
  lemma SenderIgnoredWhileReceiving(s: State, data: Msg)
    requires s.receiving && IsSenderMsg(data) && "sender_id" in data
    ensures Step(s, data) == Continue(s.(senderId := Some(data["sender_id"])), None)
  {
  }

  /**
   An offer is ignored, with no action and no change, unless the receiver
   has a (truthy) id and the offer names it (receiver.py:108-115).
   */
  lemma OfferFiltered(s: State, data: Msg)
    requires Get(data, "type") == Str("offer")
    ensures Falsy(s.receiverId) || Get(data, "receiver_id") != s.receiverId ==>
            Step(s, data) == Continue(s, None)
  {
  }

  /**
   A matching offer starts receiving with the remembered sender id, not the
   offer's own, and changes no local (receiver.py:116-119).
   */
  lemma MatchingOfferStartsReceiving(s: State, data: Msg)
    requires Get(data, "type") == Str("offer")
    requires !Falsy(s.receiverId) && Get(data, "receiver_id") == s.receiverId
    requires "offer" in data && data["offer"].Object? && s.senderId.Some?
    ensures Step(s, data) == Continue(s, Some(StartReceiving(s.senderId.value, s.receiverId, data["offer"].fields)))
  {
  }

  /** Any other `type` is only logged: no action, no change (receiver.py:120-121). */
  lemma UnknownTypeIgnored(s: State, data: Msg)
    requires "type" in data
    requires data["type"] !in {Str("registered"), Str("sender"), Str("offer")}
    ensures Step(s, data) == Continue(s, None)
  {
  }

  /** An offer this receiver accepts: it has a (truthy) id and the offer names it (receiver.py:108-115). */
  predicate Addressed(s: State, data: Msg)
  {
    !Falsy(s.receiverId) && Get(data, "receiver_id") == s.receiverId
  }

  /**
   Every way one turn of the loop raises: a missing `type`; a `registered`
   without `receiver_id`; a `sender` without `sender_id`, also while already
   receiving; and an offer addressed to this receiver whose `offer` is missing
   or not an object, or that arrives before any sender was announced, so
   that `sender_id` is unbound (receiver.py:88-117).
   */
  lemma StepRaises(s: State, data: Msg)
    ensures Step(s, data).Crash? <==>
      || "type" !in data
      || (data["type"] == Str("registered") && "receiver_id" !in data)
      || (data["type"] == Str("sender") && "sender_id" !in data)
      || (data["type"] == Str("offer") && Addressed(s, data)
          && ("offer" !in data || !data["offer"].Object? || s.senderId.None?))
  {
  }

  /**
   One turn of the loop with the answer addressed to the sender that made the
   offer: a matching offer starts receiving from the offer's own `sender_id`
   rather than from the last announced sender, and changes no local; it
   raises on a missing or non-object `offer` or a missing `sender_id`, no
   longer on an unbound local. Every other message is handled as in `Step`.
   */
  function CorrectedStep(s: State, data: Msg): (r: StepResult)
    ensures r.Continue? && r.action.Some? && r.action.value.StartReceiving? ==>
      && Get(data, "type") == Str("offer") && Addressed(s, data)
      && "sender_id" in data && r.action.value.senderId == data["sender_id"]
      && r.action.value.receiverId == s.receiverId
    ensures Get(data, "type") == Str("offer") && Addressed(s, data) ==>
      && (r.Crash? <==> "offer" !in data || !data["offer"].Object? || "sender_id" !in data)
      && (r.Continue? ==> r.next == s && r.action.Some? && r.action.value.StartReceiving?)
    ensures Get(data, "type") != Str("offer") || !Addressed(s, data) ==> r == Step(s, data)
  {
    if Get(data, "type") == Str("offer") && Addressed(s, data) then
      if "offer" !in data || !data["offer"].Object? || "sender_id" !in data then Crash
      else Continue(s, Some(StartReceiving(data["sender_id"], s.receiverId, data["offer"].fields)))
    else Step(s, data)
  }

  /** The loop after some messages: its locals, what it did, and whether it has raised. */
  datatype Session = Session(state: State, actions: seq<Action>, crashed: bool)

  function ActionList(a: Option<Action>): seq<Action>
  {
    if a.Some? then [a.value] else []
  }

  /** How many messages the actions send on the websocket. */
  function SendCount(actions: seq<Action>): nat
  {
    if actions == [] then 0
    else SendCount(actions[..|actions| - 1]) + if actions[|actions| - 1].Send? then 1 else 0
  }

  lemma SendCountAppend(actions: seq<Action>, a: Option<Action>)
    ensures SendCount(actions + ActionList(a)) == SendCount(actions) + if Sends(a) then 1 else 0
  {
    if a.Some? {
      assert (actions + [a.value])[..|actions|] == actions;
    } else {
      assert actions + ActionList(a) == actions;
    }
  }

  /**
   The loop run over the messages `inbox`, in order; after an exception the
   remaining messages are never read. The loop has sent an offer request
   exactly when `receiving` is set, so it sends at most one.
   */
  function Run(inbox: seq<Msg>): (r: Session)
    ensures SendCount(r.actions) == if r.state.receiving then 1 else 0
    decreases |inbox|
  {
    if inbox == [] then Session(Initial, [], false)
    else
      var prev := Run(inbox[..|inbox| - 1]);
      if prev.crashed then prev
      else match Step(prev.state, inbox[|inbox| - 1])
        case Crash => prev.(crashed := true)
        case Continue(next, action) =>
          SendCountAppend(prev.actions, action);
          Session(next, prev.actions + ActionList(action), false)
  }

  /** Over any sequence of messages at most one offer request is sent. */
  lemma AtMostOneRequestOffer(inbox: seq<Msg>)
    ensures SendCount(Run(inbox).actions) <= 1
  {
  }

  /** An exception ends the loop: later messages change nothing. */
  lemma {:induction false} CrashIsFinal(inbox: seq<Msg>, k: nat)
    requires k <= |inbox| && Run(inbox[..k]).crashed
    ensures Run(inbox) == Run(inbox[..k])
    decreases |inbox|
  {
    if k < |inbox| {
      var n := |inbox| - 1;
      assert inbox[..n][..k] == inbox[..k];
      CrashIsFinal(inbox[..n], k);
    } else {
      assert inbox[..k] == inbox;
    }
  }

  /** Some message of `inbox` is a `sender` announcement. */
  ghost predicate SenderSeen(inbox: seq<Msg>)
  {
    exists i :: 0 <= i < |inbox| && IsSenderMsg(inbox[i])
  }

  lemma SenderSeenSnoc(inbox: seq<Msg>)
    requires inbox != []
    ensures SenderSeen(inbox) <==> SenderSeen(inbox[..|inbox| - 1]) || IsSenderMsg(inbox[|inbox| - 1])
  {
  }

  /** One more message: the loop goes on from where it was, unless it had raised. */
  lemma RunSnoc(inbox: seq<Msg>, i: nat)
    requires i < |inbox|
    ensures Run(inbox[..i + 1]) ==
      var prev := Run(inbox[..i]);
      if prev.crashed then prev
      else match Step(prev.state, inbox[i])
        case Crash => prev.(crashed := true)
        case Continue(next, action) => Session(next, prev.actions + ActionList(action), false)
  {
    assert inbox[..i + 1][..i] == inbox[..i];
  }

  /** `RunSnoc` for a message appended to the inbox. */
  lemma RunAppend(inbox: seq<Msg>, m: Msg)
    ensures Run(inbox + [m]) ==
      var prev := Run(inbox);
      if prev.crashed then prev
      else match Step(prev.state, m)
        case Crash => prev.(crashed := true)
        case Continue(next, action) => Session(next, prev.actions + ActionList(action), false)
  {
    RunSnoc(inbox + [m], |inbox|);
    assert (inbox + [m])[..|inbox|] == inbox;
    assert (inbox + [m])[..|inbox| + 1] == inbox + [m];
  }

  /**
   While the loop is running it is receiving exactly when some `sender`
   message has been read.
   */
  lemma {:induction false} ReceivingIffSenderSeen(inbox: seq<Msg>)
    ensures !Run(inbox).crashed ==> (Run(inbox).state.receiving <==> SenderSeen(inbox))
    decreases |inbox|
  {
    if inbox != [] {
      var n := |inbox| - 1;
      var front := inbox[..n];
      ReceivingIffSenderSeen(front);
      SenderSeenSnoc(inbox);
      RunSnoc(inbox, n);
      assert inbox[..n + 1] == inbox;
    }
  }

  /** `inbox[i]` is the first `sender` announcement of `inbox`, and carries a sender id. */
  ghost predicate FirstSenderAt(inbox: seq<Msg>, i: int)
  {
    && 0 <= i < |inbox| && IsSenderMsg(inbox[i]) && "sender_id" in inbox[i]
    && forall j :: 0 <= j < i ==> !IsSenderMsg(inbox[j])
  }

  /**
   Only the first announced sender is asked: an offer request names the
   sender id of the first `sender` message in the inbox.
   */
  lemma {:induction false} RequestNamesFirstSender(inbox: seq<Msg>, k: nat)
    requires k < |Run(inbox).actions| && Run(inbox).actions[k].Send?
    ensures exists i :: FirstSenderAt(inbox, i)
                        && Get(Run(inbox).actions[k].msg, "sender_id") == inbox[i]["sender_id"]
    decreases |inbox|
  {
    var n := |inbox| - 1;
    var front := inbox[..n];
    var prev := Run(front);
    RunSnoc(inbox, n);
    assert inbox[..n + 1] == inbox;
    if prev.crashed || Step(prev.state, inbox[n]).Crash? || k < |prev.actions| {
      assert k < |prev.actions| && Run(inbox).actions[k] == prev.actions[k];
      RequestNamesFirstSender(front, k);
      var i :| FirstSenderAt(front, i) && Get(prev.actions[k].msg, "sender_id") == front[i]["sender_id"];
      assert inbox[i] == front[i];
      assert forall j :: 0 <= j < i ==> inbox[j] == front[j];
      assert FirstSenderAt(inbox, i);
    } else {
      var r := Step(prev.state, inbox[n]);
      assert Run(inbox).actions == prev.actions + ActionList(r.action);
      assert Sends(r.action);
      ReceivingIffSenderSeen(front);
      assert !SenderSeen(front);
      assert forall j :: 0 <= j < n ==> !IsSenderMsg(inbox[j]) by {
        forall j | 0 <= j < n ensures !IsSenderMsg(inbox[j]) {
          assert inbox[j] == front[j];
        }
      }
      assert FirstSenderAt(inbox, n);
      assert Get(RequestOffer(prev.state.receiverId, inbox[n]["sender_id"]), "sender_id") == inbox[n]["sender_id"];
    }
  }

  /**
   One pass of the loop body (receiver.py:87-121) on the locals `s`: the new
   locals and the action, or `raised` when the body throws.
   */
  method HandleMessage(s: State, data: Msg) returns (next: State, action: Option<Action>, raised: bool)
    ensures raised <==> Step(s, data).Crash?
    ensures !raised ==> Step(s, data) == Continue(next, action)
  {
    var receiverId, senderId, receiving := s.receiverId, s.senderId, s.receiving;
    action := None;
    raised := false;
    if "type" !in data {
      raised := true;
    } else {
      var dataType := data["type"];
      if dataType == Str("registered") {
        if "receiver_id" in data {
          receiverId := data["receiver_id"];
        } else {
          raised := true;
        }
      } else if dataType == Str("sender") {
        if "sender_id" in data {
          senderId := Some(data["sender_id"]);
          if !receiving {
            receiving := true;
            action := Some(Send(RequestOffer(receiverId, data["sender_id"])));
          }
        } else {
          raised := true;
        }
      } else if dataType == Str("offer") {
        if !Falsy(receiverId) && Get(data, "receiver_id") == receiverId {
          if "offer" in data && data["offer"].Object? && senderId.Some? {
            action := Some(StartReceiving(senderId.value, receiverId, data["offer"].fields));
          } else {
            raised := true;
          }
        }
      }
    }
    next := State(receiverId, senderId, receiving);
  }

  /**
   The dispatch loop itself (receiver.py:86-121), over the messages the
   websocket yields until it closes: it does what `Run` says, and in
   particular sends at most one offer request.
   */
  method WebsocketHandler(inbox: seq<Msg>) returns (actions: seq<Action>, crashed: bool)
    ensures actions == Run(inbox).actions && crashed == Run(inbox).crashed
    ensures SendCount(actions) <= 1
  {
    var receiverId: Json := Null;
    var senderId: Option<Json> := None;
    var receiving := false;
    actions := [];
    crashed := false;
    var i := 0;
    while i < |inbox|
      invariant 0 <= i <= |inbox|
      invariant Run(inbox[..i]) == Session(State(receiverId, senderId, receiving), actions, false)
    {
      RunSnoc(inbox, i);
      var next, action, raised := HandleMessage(State(receiverId, senderId, receiving), inbox[i]);
      if raised {
        crashed := true;
        CrashIsFinal(inbox, i + 1);
        AtMostOneRequestOffer(inbox);
        return;
      }
      receiverId, senderId, receiving := next.receiverId, next.senderId, next.receiving;
      actions := actions + ActionList(action);
      i := i + 1;
    }
    assert inbox[..i] == inbox;
    AtMostOneRequestOffer(inbox);
  }
}
