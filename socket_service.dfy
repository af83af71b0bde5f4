/** The WebSocket handlers of app/services/socket_service.py, the variant the routes of
    app/controllers/socket_controller.py serve. Each iteration of a handler's receive loop is
    one step from (session store, registry, received message, outcomes of the external
    calls) to the new state, the frames sent and whether the loop goes on. The voice-message
    handling is shared with app/services/socket_service_impl.py, whose voice branch is the
    same code. */
module SocketService {
  import opened Common
  import opened Text
  import opened Messages
  import opened DrawingModel
  import opened DrawingService
  import opened Connections
  import opened AnalysisParser
  import opened ReceiveLoop

  /** The reply to a message that is not JSON. */
  const InvalidJsonMessage: string := "Invalid JSON format"

  /** The outcomes of the calls one voice message makes: those of the voice turn, then the
      handler's own second transcription of the same audio. */
  datatype VoiceMessageCalls = VoiceMessageCalls(turn: VoiceCalls, retranscribe: Outcome<string>)

  /** The frames a voice message sends to the speaker, in order (the second transcript, then
      the turn's reply), or the exception raised before the first of them. */
  function VoiceFrames(known: bool, calls: VoiceMessageCalls): Outcome<seq<Frame>>
  {
    match VoiceTurnResult(known, calls.turn)
    case Fail(e) => Fail(e)
    case Ok(result) =>
      match calls.retranscribe
      case Fail(e) => Fail(e)
      case Ok(t) => Ok([VoiceUser(t), VoiceReply(result.text, result.audioData)])
  }

  /** The turns a voice message appends to an existing session: the voice turn's, then the
      second transcript as another "user" turn once it is known. */
  function VoiceMessageEntries(calls: VoiceMessageCalls): seq<ChatMessage>
  {
    VoiceTurnEntries(calls.turn)
    + if VoiceFrames(true, calls).Ok? then [ChatMessage("user", calls.retranscribe.value)] else []
  }

  /** The deliveries a voice message makes. */
  function VoiceSent(known: bool, calls: VoiceMessageCalls, ws: Conn, broken: map<Conn, string>): seq<Delivery>
  {
    var f := VoiceFrames(known, calls);
    if f.Ok? then SentTo(ws, f.value, broken) else []
  }

  /** What a voice message raises, if anything: a call's exception, or the speaker's send. */
  function VoiceMessageOutcome(known: bool, calls: VoiceMessageCalls, ws: Conn, broken: map<Conn, string>): Outcome<()>
  {
    var f := VoiceFrames(known, calls);
    if f.Fail? then Fail(f.error) else if ws in broken then Fail(broken[ws]) else Ok(())
  }

  /** The voice branch: run the voice turn, transcribe the audio a second time, record that
      transcript as a "user" turn when the session exists, then send the speaker the
      transcript and the reply. */
  method HandleVoiceMessage(service: DrawingServiceImpl, wire: Wire, ws: Conn, robotId: string,
                            canvasId: string, audio: Bytes, calls: VoiceMessageCalls)
    returns (r: Outcome<()>)
    requires service.Valid()
    modifies (if canvasId in service.drawingData then {service.drawingData[canvasId]} else {}), wire`sent
    ensures canvasId in service.drawingData ==>
              var s := service.drawingData[canvasId];
              && s.chatHistory == old(s.chatHistory) + VoiceMessageEntries(calls)
              && s.prompt == old(s.prompt) && s.audioData == old(s.audioData)
              && s.imageUrl == old(s.imageUrl) && s.analyses == old(s.analyses)
    ensures forall k :: k in service.drawingData && k != canvasId ==>
              service.drawingData[k].chatHistory == old(service.drawingData[k].chatHistory)
    ensures wire.sent == old(wire.sent) + VoiceSent(canvasId in service.drawingData, calls, ws, wire.broken)
    ensures r == VoiceMessageOutcome(canvasId in service.drawingData, calls, ws, wire.broken)
  {
    var result := service.ProcessAudio(audio, robotId, canvasId, calls.turn);
    if result.Fail? {
      return Fail(result.error);
    }
    if calls.retranscribe.Fail? {
      return Fail(calls.retranscribe.error);
    }
    var userText := calls.retranscribe.value;
    if canvasId in service.drawingData {
      service.drawingData[canvasId].AddMessage("user", userText);
    }
    r := wire.SendText(ws, VoiceUser(userText));
    if r.Fail? {
      return;
    }
    r := wire.SendText(ws, VoiceReply(result.value.text, result.value.audioData));
    assert SentTo(ws, [VoiceUser(userText), VoiceReply(result.value.text, result.value.audioData)], wire.broken)
        == [Delivery(ws, VoiceUser(userText)), Delivery(ws, VoiceReply(result.value.text, result.value.audioData))];
  }

  /** With an existing session and every call succeeding, a voice message records the first
      transcript, the reply and the second transcript, and the speaker receives the second
      transcript and then the reply with its audio. */
  lemma VoiceMessageAllSucceed(calls: VoiceMessageCalls, ws: Conn, broken: map<Conn, string>)
    requires TurnSucceeds(calls.turn) && calls.retranscribe.Ok? && ws !in broken
    ensures VoiceMessageEntries(calls) ==
              [ChatMessage("user", calls.turn.transcribe.value), ChatMessage("ai", calls.turn.chat.value),
               ChatMessage("user", calls.retranscribe.value)]
    ensures VoiceSent(true, calls, ws, broken) ==
              [Delivery(ws, VoiceUser(calls.retranscribe.value)),
               Delivery(ws, VoiceReply(calls.turn.chat.value, calls.turn.ttsReply.value))]
    ensures VoiceMessageOutcome(true, calls, ws, broken) == Ok(())
  {
    var f := [VoiceUser(calls.retranscribe.value), VoiceReply(calls.turn.chat.value, calls.turn.ttsReply.value)];
    assert VoiceFrames(true, calls) == Ok(f);
    assert SentTo(ws, f, broken) == [Delivery(ws, f[0]), Delivery(ws, f[1])];
  }

  /** On a canvas without a session, a voice message that gets through sends the apology and
      its audio as the reply. */
  lemma VoiceMessageUnknownCanvas(calls: VoiceMessageCalls)
    requires calls.turn.ttsApology.Ok? && calls.retranscribe.Ok?
    ensures VoiceFrames(false, calls) ==
              Ok([VoiceUser(calls.retranscribe.value), VoiceReply(Apology, calls.turn.ttsApology.value)])
  {
  }

  /** A voice message sends its two frames to the speaker alone, the transcript first. */
  lemma VoiceFramesToSpeakerOnly(known: bool, calls: VoiceMessageCalls, ws: Conn, broken: map<Conn, string>, c: Conn)
    requires VoiceFrames(known, calls).Ok? && ws !in broken
    ensures var out := Outbox(VoiceSent(known, calls, ws, broken), c);
            (c == ws ==> |out| == 2 && out[0].VoiceUser? && out[1].VoiceReply?)
            && (c != ws ==> out == [])
  {
    SentToOutbox(ws, VoiceFrames(known, calls).value, broken, c);
  }

  /** What one message does on the voice channel. A voice message is handled; any other type
      is ignored; an unreadable message, an exception of the voice branch or the client going
      away ends the loop. */
  function VoiceStep(msg: VoiceInbound, known: bool, calls: VoiceMessageCalls, ws: Conn,
                     broken: map<Conn, string>): VoiceEffect
  {
    match msg
    case VoiceMessage(_) =>
      VoiceEffect(VoiceMessageEntries(calls), VoiceSent(known, calls, ws, broken),
                  VoiceMessageOutcome(known, calls, ws, broken).Ok?)
    case ImageMessage(_) => VoiceEffect([], [], true)
    case OtherMessage => VoiceEffect([], [], true)
    case Unreadable => VoiceEffect([], [], false)
    case VoiceClosed => VoiceEffect([], [], false)
  }

  /** One iteration of the voice channel's receive loop, inside its `try`: `open` is false
      when the iteration raised or the client went away. */
  method VoiceChannelStep(service: DrawingServiceImpl, wire: Wire, ws: Conn, robotId: string,
                          canvasId: string, msg: VoiceInbound, calls: VoiceMessageCalls, ghost session: DrawingData?)
    returns (open: bool)
    requires service.Valid()
    requires session == (if canvasId in service.drawingData then service.drawingData[canvasId] else null)
    modifies (if canvasId in service.drawingData then {service.drawingData[canvasId]} else {}), wire`sent
    ensures var e := VoiceStep(msg, session != null, calls, ws, wire.broken);
            && open == e.open
            && wire.sent == old(wire.sent) + e.sent
            && (session != null ==> session.State() == AppendTurns(old(session.State()), e.entries))
  {
    match msg
    case VoiceMessage(audio) =>
      var r := HandleVoiceMessage(service, wire, ws, robotId, canvasId, audio, calls);
      open := r.Ok?;
    case ImageMessage(_) =>
      open := true;
    case OtherMessage =>
      open := true;
    case Unreadable =>
      open := false;
    case VoiceClosed =>
      open := false;
  }

  /** The steps of a sequence of voice-channel messages. */
  function VoiceSteps(msgs: seq<VoiceInbound>, known: bool, calls: seq<VoiceMessageCalls>, ws: Conn,
                      broken: map<Conn, string>): seq<VoiceEffect>
    requires |calls| == |msgs|
  {
    seq(|msgs|, i requires 0 <= i < |msgs| => VoiceStep(msgs[i], known, calls[i], ws, broken))
  }

  /** The `i`th of `effects` is the step of the `i`th message. */
  predicate IsVoiceStep(effects: seq<VoiceEffect>, msgs: seq<VoiceInbound>, known: bool, calls: seq<VoiceMessageCalls>,
                        ws: Conn, broken: map<Conn, string>, i: nat)
    requires i < |effects| == |msgs| == |calls|
  {
    effects[i] == VoiceStep(msgs[i], known, calls[i], ws, broken)
  }

  /** `effects` are the steps of the messages, one per message. */
  predicate AreVoiceSteps(effects: seq<VoiceEffect>, msgs: seq<VoiceInbound>, known: bool, calls: seq<VoiceMessageCalls>,
                          ws: Conn, broken: map<Conn, string>)
  {
    && |effects| == |msgs| == |calls|
    && forall i: nat :: i < |msgs| ==> IsVoiceStep(effects, msgs, known, calls, ws, broken, i)
  }

  lemma VoiceStepsAre(msgs: seq<VoiceInbound>, known: bool, calls: seq<VoiceMessageCalls>, ws: Conn,
                      broken: map<Conn, string>)
    requires |calls| == |msgs|
    ensures AreVoiceSteps(VoiceSteps(msgs, known, calls, ws, broken), msgs, known, calls, ws, broken)
  {
  }

  /** The next message through the channel step, its effect read off `effects`. */
  method VoiceMessageAt(service: DrawingServiceImpl, wire: Wire, ws: Conn, robotId: string, canvasId: string,
                        msgs: seq<VoiceInbound>, calls: seq<VoiceMessageCalls>, i: nat, ghost session: DrawingData?,
                        ghost effects: seq<VoiceEffect>)
    returns (open: bool)
    requires service.Valid() && i < |msgs|
    requires session == (if canvasId in service.drawingData then service.drawingData[canvasId] else null)
    requires AreVoiceSteps(effects, msgs, session != null, calls, ws, wire.broken)
    modifies (if canvasId in service.drawingData then {service.drawingData[canvasId]} else {}), wire`sent
    ensures open == effects[i].open && wire.sent == old(wire.sent) + effects[i].sent
    ensures session != null ==> session.State() == AppendTurns(old(session.State()), effects[i].entries)
  {
    assert IsVoiceStep(effects, msgs, session != null, calls, ws, wire.broken, i);
    open := VoiceChannelStep(service, wire, ws, robotId, canvasId, msgs[i], calls[i], session);
  }

  /** One pass of handle_websocket's loop over the next message (`effects` are the steps of
      all the messages, `session` the canvas's session or null): from the state the first
      `i` messages left, starting from the wire log `sent0` and the session state `start`, to
      the state the first `i + 1` leave. */
  method VoiceIteration(service: DrawingServiceImpl, wire: Wire, ws: Conn, robotId: string, canvasId: string,
                        msgs: seq<VoiceInbound>, calls: seq<VoiceMessageCalls>, i: nat, ghost effects: seq<VoiceEffect>,
                        ghost session: DrawingData?, ghost sent0: seq<Delivery>, ghost start: SessionState)
    returns (open: bool)
    requires service.Valid() && |calls| == |msgs| && i < |msgs|
    requires session == (if canvasId in service.drawingData then service.drawingData[canvasId] else null)
    requires AreVoiceSteps(effects, msgs, session != null, calls, ws, wire.broken)
    requires var run := RunVoice(effects[..i]);
             run.open && wire.sent == sent0 + run.sent && (session != null ==> session.State() == AppendTurns(start, run.entries))
    modifies (if canvasId in service.drawingData then {service.drawingData[canvasId]} else {}), wire`sent
    ensures var run := RunVoice(effects[..i + 1]);
            && open == run.open && i + 1 == run.handled && wire.sent == sent0 + run.sent
            && (session != null ==> session.State() == AppendTurns(start, run.entries))
  {
    ghost var e := effects[i];
    ghost var prior := RunVoice(effects[..i]);
    RunVoiceNext(effects, i);
    AppendTurnsConcat(start, prior.entries, e.entries);
    ghost var sentBefore := wire.sent;
    open := VoiceMessageAt(service, wire, ws, robotId, canvasId, msgs, calls, i, session, effects);
    assert wire.sent == sent0 + (prior.sent + e.sent) by {
      assert wire.sent == sentBefore + e.sent;
    }
  }

  /** The receive loop of handle_websocket: handle the messages (`msgs`, with the call
      outcomes of each in `calls`) until one ends the loop; `open` tells that every message
      was handled and the loop waits for the next. The session receives the turns and the
      wire the frames of the handled messages, in order. */
  method VoiceLoop(service: DrawingServiceImpl, wire: Wire, ws: Conn, robotId: string, canvasId: string,
                   msgs: seq<VoiceInbound>, calls: seq<VoiceMessageCalls>, ghost session: DrawingData?,
                   ghost effects: seq<VoiceEffect>)
    returns (open: bool, handled: nat)
    requires service.Valid()
    requires session == (if canvasId in service.drawingData then service.drawingData[canvasId] else null)
    requires AreVoiceSteps(effects, msgs, session != null, calls, ws, wire.broken)
    modifies (if canvasId in service.drawingData then {service.drawingData[canvasId]} else {}), wire`sent
    ensures var run := RunVoice(effects);
            && open == run.open && handled == run.handled
            && wire.sent == old(wire.sent) + run.sent
            && (session != null ==> session.State() == AppendTurns(old(session.State()), run.entries))
  {
    ghost var start := if session != null then session.State() else SessionState("", None, [], None, []);
    open, handled := true, 0;
    while open && handled < |msgs|
      invariant handled <= |msgs|
      invariant var run := RunVoice(effects[..handled]);
                && open == run.open && handled == run.handled
                && wire.sent == old(wire.sent) + run.sent
                && (session != null ==> session.State() == AppendTurns(start, run.entries))
      decreases |msgs| - handled
    {
      open := VoiceIteration(service, wire, ws, robotId, canvasId, msgs, calls, handled, effects, session, old(wire.sent), start);
      handled := handled + 1;
    }
    RunVoicePrefix(effects, handled);
  }


  /** handle_websocket: register the connection, run the receive loop, and unregister the
      connection when the loop ends (`escaped` is what unregistering raises, if anything). The
      connection stays registered while the loop waits for more messages. */
  method ServeVoiceChannel(manager: ConnectionManager, service: DrawingServiceImpl, wire: Wire, ws: Conn,
                           robotId: string, canvasId: string, msgs: seq<VoiceInbound>, calls: seq<VoiceMessageCalls>)
    returns (open: bool, handled: nat, escaped: Outcome<()>)
    requires manager.Valid() && service.Valid() && |calls| == |msgs|
    modifies manager, (if canvasId in service.drawingData then {service.drawingData[canvasId]} else {}), wire`sent
    ensures manager.Valid()
    ensures var run := RunVoice(VoiceSteps(msgs, canvasId in service.drawingData, calls, ws, wire.broken));
            && open == run.open && handled == run.handled
            && wire.sent == old(wire.sent) + run.sent
            && (canvasId in service.drawingData ==>
                  var s := service.drawingData[canvasId];
                  s.State() == AppendTurns(old(s.State()), run.entries))
    ensures var registered := Connected(old(manager.activeConnections), ws, canvasId);
            && (open ==> manager.activeConnections == registered && escaped == Ok(()))
            && (!open ==> var d := Disconnected(registered, ws, canvasId);
                          && manager.activeConnections == (if d.Ok? then d.value else registered)
                          && escaped == (if d.Ok? then Ok(()) else Fail(d.error)))
  {
    manager.Connect(ws, canvasId);
    ghost var known := canvasId in service.drawingData;
    ghost var session: DrawingData? := if known then service.drawingData[canvasId] else null;
    VoiceStepsAre(msgs, known, calls, ws, wire.broken);
    open, handled := VoiceLoop(service, wire, ws, robotId, canvasId, msgs, calls, session,
                               VoiceSteps(msgs, known, calls, ws, wire.broken));
    escaped := Ok(());
    if !open {
      escaped := manager.Disconnect(ws, canvasId);
    }
  }

  /** The opening exchange of a drawing channel. The first message must be a JSON object from
      which the request is built (`request` is the canvas id it carries, or the exception
      building it raises); the server then acknowledges it. Anything else ends the handler. */
  method Handshake(wire: Wire, ws: Conn, msg: DrawingInbound, request: Outcome<string>)
    returns (exit: Exit, canvasId: string)
    modifies wire`sent
    ensures exit == (if msg.DrawingClosed? then ClientGone
                     else if msg.Received? && request.Ok? && ws !in wire.broken then KeepOpen
                     else ServerClose)
    ensures exit == KeepOpen ==> canvasId == request.value
    ensures wire.sent == old(wire.sent) + (if msg.Received? && request.Ok? then SentTo(ws, [Ack], wire.broken) else [])
  {
    canvasId := "";
    match msg
    case DrawingClosed =>
      exit := ClientGone;
    case Received(_) =>
      if request.Fail? {
        exit := ServerClose;
      } else {
        var r := wire.SendText(ws, Ack);
        exit := if r.Ok? then KeepOpen else ServerClose;
        canvasId := request.value;
      }
    case NotAnObject =>
      exit := ServerClose;
    case InvalidJson =>
      exit := ServerClose;
  }

  /** One message of the drawing channel: a message without an image url is echoed back; an
      image url is analysed and the analysis stored silently, every failure of the analysis
      being swallowed; a message that is not JSON is answered with an error notice. A reply
      that cannot be sent, or a message that is not an object, closes the socket. */
  function DrawingStep(msg: DrawingInbound, vision: Outcome<string>, ws: Conn, broken: map<Conn, string>): DrawingEffect
  {
    match msg
    case DrawingClosed => DrawingEffect([], None, ClientGone)
    case NotAnObject => DrawingEffect([], None, ServerClose)
    case InvalidJson => ReplyTo(ws, Notice("error", InvalidJsonMessage), broken)
    case Received(obj) =>
      var url := Get(obj, "image_url");
      if !Truthy(url) then ReplyTo(ws, Echo(obj), broken)
      else if vision.Fail? || Parsed(vision.value).Fail? then DrawingEffect([], None, KeepOpen)
      else DrawingEffect([], Some(Stored(url.value, Parsed(vision.value).value)), KeepOpen)
  }

  /** One iteration of the drawing channel's receive loop (`vision` is the outcome of the
      image analysis call). */
  method DrawingChannelStep(service: DrawingServiceImpl, wire: Wire, ws: Conn, canvasId: string,
                            msg: DrawingInbound, vision: Outcome<string>, ghost session: DrawingData?)
    returns (exit: Exit)
    requires service.Valid()
    requires session == (if canvasId in service.drawingData then service.drawingData[canvasId] else null)
    modifies (if canvasId in service.drawingData then {service.drawingData[canvasId]} else {}), wire`sent
    ensures var e := DrawingStep(msg, vision, ws, wire.broken);
            && exit == e.exit
            && wire.sent == old(wire.sent) + e.sent
            && (session != null ==> session.State() == StoreAll(old(session.State()), StoredBy(e)))
  {
    match msg
    case DrawingClosed =>
      exit := ClientGone;
    case NotAnObject =>
      exit := ServerClose;
    case InvalidJson =>
      var r := wire.SendText(ws, Notice("error", InvalidJsonMessage));
      exit := if r.Ok? then KeepOpen else ServerClose;
    case Received(obj) =>
      var imageUrl := Get(obj, "image_url");
      if !Truthy(imageUrl) {
        var r := wire.SendText(ws, Echo(obj));
        exit := if r.Ok? then KeepOpen else ServerClose;
        return;
      }
      exit := KeepOpen;
      if vision.Fail? {
        return;
      }
      var analysis := ParseAnalysis(vision.value);
      if analysis.Fail? {
        return;
      }
      if canvasId in service.drawingData {
        var session := service.drawingData[canvasId];
        session.UpdateImage(imageUrl.value);
        session.AddAnalysis(analysis.value);
      }
  }

  /** The steps of a sequence of drawing-channel messages. */
  function DrawingSteps(msgs: seq<DrawingInbound>, visions: seq<Outcome<string>>, ws: Conn,
                        broken: map<Conn, string>): seq<DrawingEffect>
    requires |visions| == |msgs|
  {
    seq(|msgs|, i requires 0 <= i < |msgs| => DrawingStep(msgs[i], visions[i], ws, broken))
  }

  /** The `i`th of `effects` is the step of the `i`th message. */
  predicate IsDrawingStep(effects: seq<DrawingEffect>, msgs: seq<DrawingInbound>, visions: seq<Outcome<string>>,
                          ws: Conn, broken: map<Conn, string>, i: nat)
    requires i < |effects| == |msgs| == |visions|
  {
    effects[i] == DrawingStep(msgs[i], visions[i], ws, broken)
  }

  /** `effects` are the steps of the messages, one per message. */
  predicate AreDrawingSteps(effects: seq<DrawingEffect>, msgs: seq<DrawingInbound>, visions: seq<Outcome<string>>,
                            ws: Conn, broken: map<Conn, string>)
  {
    && |effects| == |msgs| == |visions|
    && forall i: nat :: i < |msgs| ==> IsDrawingStep(effects, msgs, visions, ws, broken, i)
  }

  lemma DrawingStepsAre(msgs: seq<DrawingInbound>, visions: seq<Outcome<string>>, ws: Conn, broken: map<Conn, string>)
    requires |visions| == |msgs|
    ensures AreDrawingSteps(DrawingSteps(msgs, visions, ws, broken), msgs, visions, ws, broken)
  {
  }

  /** The next message through the channel step, its effect read off `effects`. */
  method DrawingMessageAt(service: DrawingServiceImpl, wire: Wire, ws: Conn, canvasId: string,
                          msgs: seq<DrawingInbound>, visions: seq<Outcome<string>>, i: nat, ghost session: DrawingData?,
                          ghost effects: seq<DrawingEffect>)
    returns (exit: Exit)
    requires service.Valid() && i < |msgs|
    requires session == (if canvasId in service.drawingData then service.drawingData[canvasId] else null)
    requires AreDrawingSteps(effects, msgs, visions, ws, wire.broken)
    modifies (if canvasId in service.drawingData then {service.drawingData[canvasId]} else {}), wire`sent
    ensures exit == effects[i].exit && wire.sent == old(wire.sent) + effects[i].sent
    ensures session != null ==> session.State() == StoreAll(old(session.State()), StoredBy(effects[i]))
  {
    assert IsDrawingStep(effects, msgs, visions, ws, wire.broken, i);
    exit := DrawingChannelStep(service, wire, ws, canvasId, msgs[i], visions[i], session);
  }

  /** One pass of handle_drawing_websocket's loop over the next message (`effects` are the
      steps of all the messages, `session` the canvas's session or null): from the state the
      first `i` messages left, starting from the wire log `sent0` and the session state
      `start`, to the state the first `i + 1` leave. */
  method DrawingIteration(service: DrawingServiceImpl, wire: Wire, ws: Conn, canvasId: string,
                          msgs: seq<DrawingInbound>, visions: seq<Outcome<string>>, i: nat, ghost effects: seq<DrawingEffect>,
                          ghost session: DrawingData?, ghost sent0: seq<Delivery>, ghost start: SessionState)
    returns (exit: Exit)
    requires service.Valid() && |visions| == |msgs| && i < |msgs|
    requires session == (if canvasId in service.drawingData then service.drawingData[canvasId] else null)
    requires AreDrawingSteps(effects, msgs, visions, ws, wire.broken)
    requires var run := RunDrawing(effects[..i]);
             run.exit == KeepOpen && wire.sent == sent0 + run.sent && (session != null ==> session.State() == StoreAll(start, run.stored))
    modifies (if canvasId in service.drawingData then {service.drawingData[canvasId]} else {}), wire`sent
    ensures var run := RunDrawing(effects[..i + 1]);
            && exit == run.exit && i + 1 == run.handled && wire.sent == sent0 + run.sent
            && (session != null ==> session.State() == StoreAll(start, run.stored))
  {
    ghost var e := effects[i];
    ghost var prior := RunDrawing(effects[..i]);
    RunDrawingNext(effects, i);
    StoreAllConcat(start, prior.stored, StoredBy(e));
    ghost var sentBefore := wire.sent;
    exit := DrawingMessageAt(service, wire, ws, canvasId, msgs, visions, i, session, effects);
    assert wire.sent == sent0 + (prior.sent + e.sent) by {
      assert wire.sent == sentBefore + e.sent;
    }
  }

  /** The receive loop of handle_drawing_websocket after its handshake: handle the messages
      (with the analysis outcome of each in `visions`) until one ends the loop. The session of
      the canvas receives the analyses of the handled messages in order and keeps the image
      url stored last. */
  method DrawingLoop(service: DrawingServiceImpl, wire: Wire, ws: Conn, canvasId: string,
                     msgs: seq<DrawingInbound>, visions: seq<Outcome<string>>, ghost session: DrawingData?,
                     ghost effects: seq<DrawingEffect>)
    returns (exit: Exit, handled: nat)
    requires service.Valid()
    requires session == (if canvasId in service.drawingData then service.drawingData[canvasId] else null)
    requires AreDrawingSteps(effects, msgs, visions, ws, wire.broken)
    modifies (if canvasId in service.drawingData then {service.drawingData[canvasId]} else {}), wire`sent
    ensures var run := RunDrawing(effects);
            && exit == run.exit && handled == run.handled
            && wire.sent == old(wire.sent) + run.sent
            && (session != null ==> session.State() == StoreAll(old(session.State()), run.stored))
  {
    ghost var start := if session != null then session.State() else SessionState("", None, [], None, []);
    exit, handled := KeepOpen, 0;
    while exit == KeepOpen && handled < |msgs|
      invariant handled <= |msgs|
      invariant var run := RunDrawing(effects[..handled]);
                && exit == run.exit && handled == run.handled
                && wire.sent == old(wire.sent) + run.sent
                && (session != null ==> session.State() == StoreAll(start, run.stored))
      decreases |msgs| - handled
    {
      exit := DrawingIteration(service, wire, ws, canvasId, msgs, visions, handled, effects, session, old(wire.sent), start);
      handled := handled + 1;
    }
    RunDrawingPrefix(effects, handled);
  }


  /** handle_drawing_websocket: the handshake on the first message, then, when it succeeded,
      the receive loop over the rest (`request` is what building the request from the first
      message yields; `visions` the analysis outcome of each later message). */
  method ServeDrawingChannel(service: DrawingServiceImpl, wire: Wire, ws: Conn, first: DrawingInbound,
                             request: Outcome<string>, msgs: seq<DrawingInbound>, visions: seq<Outcome<string>>)
    returns (exit: Exit, handled: nat)
    requires service.Valid() && |visions| == |msgs|
    modifies service.drawingData.Values, wire`sent
    ensures request.Fail? || !first.Received? || ws in wire.broken ==>
              && exit == (if first.DrawingClosed? then ClientGone else ServerClose) && handled == 0
              && wire.sent == old(wire.sent) + (if first.Received? && request.Ok? then SentTo(ws, [Ack], wire.broken) else [])
              && forall d :: d in service.drawingData.Values ==> d.State() == old(d.State())
    ensures request.Ok? && first.Received? && ws !in wire.broken ==>
              var run := RunDrawing(DrawingSteps(msgs, visions, ws, wire.broken));
              && exit == run.exit && handled == run.handled
              && wire.sent == old(wire.sent) + [Delivery(ws, Ack)] + run.sent
              && (request.value in service.drawingData ==>
                    var s := service.drawingData[request.value];
                    s.State() == StoreAll(old(s.State()), run.stored))
              && forall k :: k in service.drawingData && k != request.value ==>
                   service.drawingData[k].State() == old(service.drawingData[k].State())
  {
    var canvasId;
    exit, canvasId := Handshake(wire, ws, first, request);
    handled := 0;
    if exit == KeepOpen {
      ghost var session: DrawingData? := if canvasId in service.drawingData then service.drawingData[canvasId] else null;
      DrawingStepsAre(msgs, visions, ws, wire.broken);
      exit, handled := DrawingLoop(service, wire, ws, canvasId, msgs, visions, session,
                                   DrawingSteps(msgs, visions, ws, wire.broken));
    }
  }

  /** A message without an image url is echoed back to the sender and changes nothing. */
  lemma EchoWithoutImageUrl(obj: Obj, vision: Outcome<string>, ws: Conn, broken: map<Conn, string>)
    requires !Truthy(Get(obj, "image_url")) && ws !in broken
    ensures DrawingStep(Received(obj), vision, ws, broken) == DrawingEffect([Delivery(ws, Echo(obj))], None, KeepOpen)
  {
  }

  /** A failed analysis (the call fails, or its answer has a marked line without a colon)
      sends nothing, stores nothing and keeps the channel open. */
  lemma AnalysisFailureSwallowed(obj: Obj, vision: Outcome<string>, ws: Conn, broken: map<Conn, string>)
    requires Truthy(Get(obj, "image_url"))
    requires vision.Fail? || !WellFormed(Split(vision.value, '\n'))
    ensures DrawingStep(Received(obj), vision, ws, broken) == DrawingEffect([], None, KeepOpen)
  {
    if vision.Ok? {
      ParsedLastWins(vision.value);
    }
  }

  /** A successful analysis is stored with its image url and nothing is sent back. */
  lemma AnalysisStoredSilently(obj: Obj, text: string, ws: Conn, broken: map<Conn, string>)
    requires Truthy(Get(obj, "image_url")) && WellFormed(Split(text, '\n'))
    ensures var lines := Split(text, '\n');
            DrawingStep(Received(obj), Ok(text), ws, broken)
              == DrawingEffect([], Some(Stored(Get(obj, "image_url").value, AnalysisOf(lines))), KeepOpen)
  {
    ParsedLastWins(text);
  }

  /** A message that is not JSON is answered with an error notice and the loop goes on. */
  lemma InvalidJsonAnswered(vision: Outcome<string>, ws: Conn, broken: map<Conn, string>)
    requires ws !in broken
    ensures DrawingStep(InvalidJson, vision, ws, broken)
              == DrawingEffect([Delivery(ws, Notice("error", InvalidJsonMessage))], None, KeepOpen)
  {
  }
}
