/** The WebSocket handlers of app/services/socket_service_impl.py. Its voice channel adds an
    image branch to the voice handling of SocketService: the drawing is analysed, a feedback
    reply is recorded and spoken to every connection of the canvas. Its drawing channel
    forwards images to the canvas and analyses, stores and answers with the analysis. */
module SocketServiceImpl {
  import opened Common
  import opened Text
  import opened Messages
  import opened DrawingModel
  import opened DrawingService
  import opened Connections
  import opened AnalysisParser
  import opened ReceiveLoop
  import opened SocketService

  /** The prefix of the error notice of the voice channel's image branch. */
  const ImageErrorPrefix: string := "이미지 처리 중 오류 발생: "

  /** The prefix of the error notice of the drawing channel's analysis. */
  const AnalysisErrorPrefix: string := "이미지 분석 중 오류 발생: "

  /** The notice acknowledging a forwarded image. */
  const ForwardedMessage: string := "Image forwarded"

  /** The data-url prefix put before the base64 image data. */
  const DataUrlPrefix: string := "data:image/png;base64,"

  /** The outcomes of the calls of the image branch: the image analysis, the feedback chat
      completion and the synthesis of the feedback. */
  datatype ImageCalls = ImageCalls(vision: Outcome<string>, feedback: Outcome<string>, tts: Outcome<Bytes>)

  /** How far the image branch gets before any broadcast: the feedback it records, the frame
      it broadcasts, and the exception that stops it. */
  datatype ImagePlan = ImagePlan(feedback: Option<string>, broadcast: Option<Frame>, error: Option<string>)

  /** How far the image branch gets for the given call outcomes. The parsed analysis only
      feeds the feedback request, so only whether parsing raises matters here. */
  function ImagePlanOf(known: bool, calls: ImageCalls): ImagePlan
  {
    if calls.vision.Fail? then ImagePlan(None, None, Some(calls.vision.error))
    else if Parsed(calls.vision.value).Fail? then ImagePlan(None, None, Some(Parsed(calls.vision.value).error))
    else if !known then ImagePlan(None, None, None)
    else if calls.feedback.Fail? then ImagePlan(None, None, Some(calls.feedback.error))
    else if calls.tts.Fail? then ImagePlan(Some(calls.feedback.value), None, Some(calls.tts.error))
    else ImagePlan(Some(calls.feedback.value), Some(VoiceReply(calls.feedback.value, calls.tts.value)), None)
  }

  /** The deliveries of the broadcast: to the canvas's connections up to the first whose send
      raises. */
  function ImageBroadcast(plan: ImagePlan, conns: seq<Conn>, broken: map<Conn, string>): seq<Delivery>
  {
    if plan.broadcast.Some? then Deliveries(conns[..FirstBroken(conns, broken)], plan.broadcast.value) else []
  }

  /** The exception the image branch catches: a call's or the parser's, or the broadcast's. */
  function ImageFailure(plan: ImagePlan, conns: seq<Conn>, broken: map<Conn, string>): Option<string>
  {
    if plan.error.Some? then plan.error
    else
      var k := FirstBroken(conns, broken);
      if plan.broadcast.Some? && k < |conns| then Some(broken[conns[k]]) else None
  }

  /** The turns an image message appends to an existing session. */
  function ImageEntries(imageData: Option<string>, known: bool, calls: ImageCalls): seq<ChatMessage>
  {
    var plan := ImagePlanOf(known, calls);
    if Truthy(imageData) && plan.feedback.Some? then [ChatMessage("assistant", plan.feedback.value)] else []
  }

  /** The deliveries of an image message: the broadcast, then the error notice to the sender. */
  function ImageSent(imageData: Option<string>, known: bool, calls: ImageCalls, conns: seq<Conn>, ws: Conn,
                     broken: map<Conn, string>): seq<Delivery>
  {
    if !Truthy(imageData) then []
    else
      var plan := ImagePlanOf(known, calls);
      var failure := ImageFailure(plan, conns, broken);
      ImageBroadcast(plan, conns, broken)
      + if failure.Some? then SentTo(ws, [Notice("error", ImageErrorPrefix + failure.value)], broken) else []
  }

  /** What an image message raises out of the branch: only the error notice's own send. */
  function ImageOutcome(imageData: Option<string>, known: bool, calls: ImageCalls, conns: seq<Conn>, ws: Conn,
                        broken: map<Conn, string>): Outcome<()>
  {
    if Truthy(imageData) && ImageFailure(ImagePlanOf(known, calls), conns, broken).Some? && ws in broken
    then Fail(broken[ws]) else Ok(())
  }

  /** The `try` body of the image branch for a truthy image: analyse and parse; with a
      session, request feedback, record it as an "assistant" turn, synthesize it and
      broadcast it to the canvas. `failure` is the exception that stops it, if any. */
  method ImageBranchTry(manager: ConnectionManager, service: DrawingServiceImpl, wire: Wire, ws: Conn,
                        canvasId: string, imageData: string, calls: ImageCalls)
    returns (failure: Option<string>)
    requires imageData != "" && service.Valid()
    modifies (if canvasId in service.drawingData then {service.drawingData[canvasId]} else {}), wire`sent
    ensures var plan := ImagePlanOf(canvasId in service.drawingData, calls);
            var conns := ConnectionsOf(manager.activeConnections, canvasId);
            && failure == ImageFailure(plan, conns, wire.broken)
            && wire.sent == old(wire.sent) + ImageBroadcast(plan, conns, wire.broken)
    ensures canvasId in service.drawingData ==>
              var s := service.drawingData[canvasId];
              s.State() == AppendTurns(old(s.State()), ImageEntries(Some(imageData), true, calls))
  {
    failure := None;
    if calls.vision.Fail? {
      failure := Some(calls.vision.error);
    } else {
      var analysis := ParseAnalysis(calls.vision.value);
      if analysis.Fail? {
        failure := Some(analysis.error);
      } else if canvasId in service.drawingData {
        var session := service.drawingData[canvasId];
        if calls.feedback.Fail? {
          failure := Some(calls.feedback.error);
        } else {
          var feedbackText := calls.feedback.value;
          session.AddMessage("assistant", feedbackText);
          if calls.tts.Fail? {
            failure := Some(calls.tts.error);
          } else {
            var b := manager.BroadcastToCanvas(VoiceReply(feedbackText, calls.tts.value), canvasId, wire);
            if b.Fail? {
              failure := Some(b.error);
            }
          }
        }
      }
    }
  }

  /** The image branch of the voice channel for a truthy image: the `try` body, then any
      exception on the way answered with an error notice to the sender alone. */
  method HandleImageMessage(manager: ConnectionManager, service: DrawingServiceImpl, wire: Wire, ws: Conn,
                            canvasId: string, imageData: string, calls: ImageCalls)
    returns (r: Outcome<()>)
    requires imageData != "" && service.Valid()
    modifies (if canvasId in service.drawingData then {service.drawingData[canvasId]} else {}), wire`sent
    ensures var known := canvasId in service.drawingData;
            var conns := ConnectionsOf(manager.activeConnections, canvasId);
            && wire.sent == old(wire.sent) + ImageSent(Some(imageData), known, calls, conns, ws, wire.broken)
            && r == ImageOutcome(Some(imageData), known, calls, conns, ws, wire.broken)
    ensures canvasId in service.drawingData ==>
              var s := service.drawingData[canvasId];
              s.State() == AppendTurns(old(s.State()), ImageEntries(Some(imageData), true, calls))
  {
    var failure := ImageBranchTry(manager, service, wire, ws, canvasId, imageData, calls);
    r := Ok(());
    if failure.Some? {
      var notice := Notice("error", ImageErrorPrefix + failure.value);
      r := wire.SendText(ws, notice);
      assert SentTo(ws, [notice], wire.broken) == if r.Ok? then [Delivery(ws, notice)] else [];
    }
  }

  /** With a session and every call succeeding, the feedback is recorded as one "assistant"
      turn and spoken to every connection of the canvas, in registration order. */
  lemma ImageFeedbackBroadcast(imageData: string, text: string, feedback: string, audio: Bytes,
                               conns: seq<Conn>, ws: Conn, broken: map<Conn, string>)
    requires imageData != "" && WellFormed(Split(text, '\n'))
    requires forall c :: c in conns ==> c !in broken
    ensures var calls := ImageCalls(Ok(text), Ok(feedback), Ok(audio));
            && ImageEntries(Some(imageData), true, calls) == [ChatMessage("assistant", feedback)]
            && ImageSent(Some(imageData), true, calls, conns, ws, broken) == Deliveries(conns, VoiceReply(feedback, audio))
            && ImageOutcome(Some(imageData), true, calls, conns, ws, broken) == Ok(())
  {
    ParsedLastWins(text);
    FirstBrokenAt(conns, broken, |conns|);
    assert conns[..|conns|] == conns;
  }

  /** An image message whose image data is missing or empty does nothing. */
  lemma EmptyImageIgnored(imageData: Option<string>, known: bool, calls: ImageCalls, conns: seq<Conn>, ws: Conn,
                          broken: map<Conn, string>)
    requires !Truthy(imageData)
    ensures ImageEntries(imageData, known, calls) == []
    ensures ImageSent(imageData, known, calls, conns, ws, broken) == []
    ensures ImageOutcome(imageData, known, calls, conns, ws, broken) == Ok(())
  {
  }

  /** Without a session, an analysis that succeeds leads to no feedback, no turn and no frame. */
  lemma ImageWithoutSessionSilent(imageData: string, text: string, calls: ImageCalls, conns: seq<Conn>, ws: Conn,
                                  broken: map<Conn, string>)
    requires calls.vision == Ok(text) && WellFormed(Split(text, '\n'))
    ensures ImageEntries(Some(imageData), false, calls) == []
    ensures ImageSent(Some(imageData), false, calls, conns, ws, broken) == []
  {
    ParsedLastWins(text);
  }

  /** A failure before the broadcast is reported to the sender alone, with the exception's
      message after the prefix. */
  lemma ImageErrorToSenderOnly(imageData: string, known: bool, calls: ImageCalls, conns: seq<Conn>, ws: Conn,
                               broken: map<Conn, string>)
    requires imageData != "" && ImagePlanOf(known, calls).error.Some? && ws !in broken
    ensures ImageSent(Some(imageData), known, calls, conns, ws, broken)
              == [Delivery(ws, Notice("error", ImageErrorPrefix + ImagePlanOf(known, calls).error.value))]
  {
    var notice := Notice("error", ImageErrorPrefix + ImagePlanOf(known, calls).error.value);
    assert SentTo(ws, [notice], broken) == [Delivery(ws, notice)];
  }

  /** The call outcomes one voice-channel message meets: those of a voice message and those
      of an image message (only the ones its type selects matter). */
  datatype MessageCalls = MessageCalls(voice: VoiceMessageCalls, image: ImageCalls)

  /** What one message does on this variant's voice channel: a voice message as in
      SocketService, an image message through the image branch, where only an error notice
      that cannot be sent ends the loop; other types are ignored. `conns` are the canvas's
      registered connections. */
  function VoiceStep(msg: VoiceInbound, known: bool, calls: MessageCalls, conns: seq<Conn>, ws: Conn,
                     broken: map<Conn, string>): VoiceEffect
  {
    match msg
    case VoiceMessage(_) =>
      VoiceEffect(VoiceMessageEntries(calls.voice), VoiceSent(known, calls.voice, ws, broken),
                  VoiceMessageOutcome(known, calls.voice, ws, broken).Ok?)
    case ImageMessage(imageData) =>
      VoiceEffect(ImageEntries(imageData, known, calls.image), ImageSent(imageData, known, calls.image, conns, ws, broken),
                  ImageOutcome(imageData, known, calls.image, conns, ws, broken).Ok?)
    case OtherMessage => VoiceEffect([], [], true)
    case Unreadable => VoiceEffect([], [], false)
    case VoiceClosed => VoiceEffect([], [], false)
  }

  /** One iteration of this variant's voice-channel loop, inside its `try`. The registry is
      only read, by the broadcast. */
  method VoiceChannelStep(manager: ConnectionManager, service: DrawingServiceImpl, wire: Wire, ws: Conn,
                          robotId: string, canvasId: string, msg: VoiceInbound, calls: MessageCalls,
                          ghost conns: seq<Conn>, ghost session: DrawingData?)
    returns (open: bool)
    requires service.Valid() && conns == ConnectionsOf(manager.activeConnections, canvasId)
    requires session == (if canvasId in service.drawingData then service.drawingData[canvasId] else null)
    modifies (if canvasId in service.drawingData then {service.drawingData[canvasId]} else {}), wire`sent
    ensures var e := VoiceStep(msg, session != null, calls, conns, ws, wire.broken);
            && open == e.open
            && wire.sent == old(wire.sent) + e.sent
            && (session != null ==> session.State() == AppendTurns(old(session.State()), e.entries))
  {
    match msg
    case VoiceMessage(audio) =>
      var r := HandleVoiceMessage(service, wire, ws, robotId, canvasId, audio, calls.voice);
      open := r.Ok?;
    case ImageMessage(imageData) =>
      open := true;
      if Truthy(imageData) {
        var r := HandleImageMessage(manager, service, wire, ws, canvasId, imageData.value, calls.image);
        open := r.Ok?;
      }
    case OtherMessage =>
      open := true;
    case Unreadable =>
      open := false;
    case VoiceClosed =>
      open := false;
  }

  /** The steps of a sequence of voice-channel messages. */
  function VoiceSteps(msgs: seq<VoiceInbound>, known: bool, calls: seq<MessageCalls>, conns: seq<Conn>, ws: Conn,
                      broken: map<Conn, string>): seq<VoiceEffect>
    requires |calls| == |msgs|
  {
    seq(|msgs|, i requires 0 <= i < |msgs| => VoiceStep(msgs[i], known, calls[i], conns, ws, broken))
  }

  /** The `i`th of `effects` is the step of the `i`th message. */
  predicate IsVoiceStep(effects: seq<VoiceEffect>, msgs: seq<VoiceInbound>, known: bool, calls: seq<MessageCalls>,
                        conns: seq<Conn>, ws: Conn, broken: map<Conn, string>, i: nat)
    requires i < |effects| == |msgs| == |calls|
  {
    effects[i] == VoiceStep(msgs[i], known, calls[i], conns, ws, broken)
  }

  /** `effects` are the steps of the messages, one per message. */
  predicate AreVoiceSteps(effects: seq<VoiceEffect>, msgs: seq<VoiceInbound>, known: bool, calls: seq<MessageCalls>,
                          conns: seq<Conn>, ws: Conn, broken: map<Conn, string>)
  {
    && |effects| == |msgs| == |calls|
    && forall i: nat :: i < |msgs| ==> IsVoiceStep(effects, msgs, known, calls, conns, ws, broken, i)
  }

  lemma VoiceStepsAre(msgs: seq<VoiceInbound>, known: bool, calls: seq<MessageCalls>, conns: seq<Conn>, ws: Conn,
                      broken: map<Conn, string>)
    requires |calls| == |msgs|
    ensures AreVoiceSteps(VoiceSteps(msgs, known, calls, conns, ws, broken), msgs, known, calls, conns, ws, broken)
  {
  }

  /** The next message through the channel step, its effect read off `effects`. */
  method VoiceMessageAt(manager: ConnectionManager, service: DrawingServiceImpl, wire: Wire, ws: Conn,
                        robotId: string, canvasId: string, msgs: seq<VoiceInbound>, calls: seq<MessageCalls>, i: nat,
                        ghost conns: seq<Conn>, ghost session: DrawingData?, ghost effects: seq<VoiceEffect>)
    returns (open: bool)
    requires service.Valid() && i < |msgs|
    requires conns == ConnectionsOf(manager.activeConnections, canvasId)
    requires session == (if canvasId in service.drawingData then service.drawingData[canvasId] else null)
    requires AreVoiceSteps(effects, msgs, session != null, calls, conns, ws, wire.broken)
    modifies (if canvasId in service.drawingData then {service.drawingData[canvasId]} else {}), wire`sent
    ensures open == effects[i].open && wire.sent == old(wire.sent) + effects[i].sent
    ensures session != null ==> session.State() == AppendTurns(old(session.State()), effects[i].entries)
  {
    assert IsVoiceStep(effects, msgs, session != null, calls, conns, ws, wire.broken, i);
    open := VoiceChannelStep(manager, service, wire, ws, robotId, canvasId, msgs[i], calls[i], conns, session);
  }

  /** One pass of handle_websocket's loop over the next message (`effects` are the steps of
      all the messages, `session` the canvas's session or null): from the state the first
      `i` messages left, starting from the wire log `sent0` and the session state `start`, to
      the state the first `i + 1` leave. */
  method VoiceIteration(manager: ConnectionManager, service: DrawingServiceImpl, wire: Wire, ws: Conn,
                        robotId: string, canvasId: string, msgs: seq<VoiceInbound>, calls: seq<MessageCalls>, i: nat,
                        ghost conns: seq<Conn>, ghost effects: seq<VoiceEffect>, ghost session: DrawingData?,
                        ghost sent0: seq<Delivery>, ghost start: SessionState)
    returns (open: bool)
    requires service.Valid() && |calls| == |msgs| && i < |msgs|
    requires conns == ConnectionsOf(manager.activeConnections, canvasId)
    requires session == (if canvasId in service.drawingData then service.drawingData[canvasId] else null)
    requires AreVoiceSteps(effects, msgs, session != null, calls, conns, ws, wire.broken)
    requires var run := RunVoice(effects[..i]);
             run.open && wire.sent == sent0 + run.sent && (session != null ==> session.State() == AppendTurns(start, run.entries))
    modifies (if canvasId in service.drawingData then {service.drawingData[canvasId]} else {}), wire`sent
    ensures var run := RunVoice(effects[..i + 1]);
            && open == run.open && i + 1 == run.handled && wire.sent == sent0 + run.sent
            && (session != null ==> session.State() == AppendTurns(start, run.entries))
  {
    ghost var e := effects[i];
    ghost var prior := RunVoice(effects[..i]);
    RunVoiceNext(effects, i);
    AppendTurnsConcat(start, prior.entries, e.entries);
    ghost var sentBefore := wire.sent;
    open := VoiceMessageAt(manager, service, wire, ws, robotId, canvasId, msgs, calls, i, conns, session, effects);
    assert wire.sent == sent0 + (prior.sent + e.sent) by {
      assert wire.sent == sentBefore + e.sent;
    }
  }

  /** The receive loop of handle_websocket: handle the messages until one ends the loop; the
      session receives the turns and the wire the frames of the handled messages, in order. */
  method VoiceLoop(manager: ConnectionManager, service: DrawingServiceImpl, wire: Wire, ws: Conn,
                   robotId: string, canvasId: string, msgs: seq<VoiceInbound>, calls: seq<MessageCalls>,
                   ghost conns: seq<Conn>, ghost session: DrawingData?, ghost effects: seq<VoiceEffect>)
    returns (open: bool, handled: nat)
    requires service.Valid() && conns == ConnectionsOf(manager.activeConnections, canvasId)
    requires session == (if canvasId in service.drawingData then service.drawingData[canvasId] else null)
    requires AreVoiceSteps(effects, msgs, session != null, calls, conns, ws, wire.broken)
    modifies (if canvasId in service.drawingData then {service.drawingData[canvasId]} else {}), wire`sent
    ensures var run := RunVoice(effects);
            && open == run.open && handled == run.handled
            && wire.sent == old(wire.sent) + run.sent
            && (session != null ==> session.State() == AppendTurns(old(session.State()), run.entries))
  {
    ghost var start := if session != null then session.State() else SessionState("", None, [], None, []);
    open, handled := true, 0;
    while open && handled < |msgs|
      invariant handled <= |msgs|
      invariant var run := RunVoice(effects[..handled]);
                && open == run.open && handled == run.handled
                && wire.sent == old(wire.sent) + run.sent
                && (session != null ==> session.State() == AppendTurns(start, run.entries))
      decreases |msgs| - handled
    {
      open := VoiceIteration(manager, service, wire, ws, robotId, canvasId, msgs, calls, handled, conns, effects, session,
                             old(wire.sent), start);
      handled := handled + 1;
    }
    RunVoicePrefix(effects, handled);
  }


  /** handle_websocket: register the connection, run the receive loop, and unregister the
      connection when the loop ends (`escaped` is what unregistering raises, if anything).
      Image feedback reaches the canvas's connections as registered, this one included. */
  method ServeVoiceChannel(manager: ConnectionManager, service: DrawingServiceImpl, wire: Wire, ws: Conn,
                           robotId: string, canvasId: string, msgs: seq<VoiceInbound>, calls: seq<MessageCalls>)
    returns (open: bool, handled: nat, escaped: Outcome<()>)
    requires manager.Valid() && service.Valid() && |calls| == |msgs|
    modifies manager, (if canvasId in service.drawingData then {service.drawingData[canvasId]} else {}), wire`sent
    ensures manager.Valid()
    ensures var conns := ConnectionsOf(old(manager.activeConnections), canvasId) + [ws];
            var run := RunVoice(VoiceSteps(msgs, canvasId in service.drawingData, calls, conns, ws, wire.broken));
            && open == run.open && handled == run.handled
            && wire.sent == old(wire.sent) + run.sent
            && (canvasId in service.drawingData ==>
                  var s := service.drawingData[canvasId];
                  s.State() == AppendTurns(old(s.State()), run.entries))
    ensures var registered := Connected(old(manager.activeConnections), ws, canvasId);
            && (open ==> manager.activeConnections == registered && escaped == Ok(()))
            && (!open ==> var d := Disconnected(registered, ws, canvasId);
                          && manager.activeConnections == (if d.Ok? then d.value else registered)
                          && escaped == (if d.Ok? then Ok(()) else Fail(d.error)))
  {
    manager.Connect(ws, canvasId);
    ghost var conns := ConnectionsOf(manager.activeConnections, canvasId);
    assert conns == ConnectionsOf(old(manager.activeConnections), canvasId) + [ws];
    ghost var known := canvasId in service.drawingData;
    ghost var session: DrawingData? := if known then service.drawingData[canvasId] else null;
    VoiceStepsAre(msgs, known, calls, conns, ws, wire.broken);
    open, handled := VoiceLoop(manager, service, wire, ws, robotId, canvasId, msgs, calls, conns, session,
                               VoiceSteps(msgs, known, calls, conns, ws, wire.broken));
    escaped := Ok(());
    if !open {
      escaped := manager.Disconnect(ws, canvasId);
    }
  }

  /** The image url an analysed message is stored under: the data-url prefix and the rendered
      image data. */
  function AnalysedImageUrl(imageData: Option<string>): string
  {
    DataUrlPrefix + Render(imageData)
  }

  /** One message of the drawing channel. A truthy image is forwarded to the canvas and
      acknowledged; otherwise the image is analysed, the analysis stored with its image url
      and sent back, and a failed analysis answered with an error notice. A failing forward,
      or a reply that cannot be sent, closes the socket. */
  function ForwardingStep(msg: DrawingInbound, vision: Outcome<string>, ws: Conn, conns: seq<Conn>,
                          broken: map<Conn, string>): DrawingEffect
  {
    match msg
    case DrawingClosed => DrawingEffect([], None, ClientGone)
    case NotAnObject => DrawingEffect([], None, ServerClose)
    case InvalidJson => ReplyTo(ws, Notice("error", InvalidJsonMessage), broken)
    case Received(obj) =>
      var imageData := Get(obj, "image_data");
      if Truthy(imageData) then ForwardEffect(imageData.value, ws, conns, broken)
      else AnalysisEffect(imageData, vision, ws, broken)
  }

  /** A truthy image: forwarded to the canvas's connections up to the first whose send
      raises, which closes the socket; otherwise acknowledged to the sender. */
  function ForwardEffect(imageData: string, ws: Conn, conns: seq<Conn>, broken: map<Conn, string>): DrawingEffect
  {
    var k := FirstBroken(conns, broken);
    var forwarded := Deliveries(conns[..k], ImageForward(imageData));
    if k < |conns| then DrawingEffect(forwarded, None, ServerClose)
    else
      var ack := ReplyTo(ws, Notice("success", ForwardedMessage), broken);
      ack.(sent := forwarded + ack.sent)
  }

  /** Any other message: the image analysed and parsed, the analysis stored with its image
      url and sent back; a failure on the way answered with an error notice. */
  function AnalysisEffect(imageData: Option<string>, vision: Outcome<string>, ws: Conn,
                          broken: map<Conn, string>): DrawingEffect
  {
    var analysis := if vision.Fail? then Fail(vision.error) else Parsed(vision.value);
    if analysis.Fail? then ReplyTo(ws, Notice("error", AnalysisErrorPrefix + analysis.error), broken)
    else
      var reply := ReplyTo(ws, AnalysisReply(analysis.value), broken);
      reply.(stored := Some(Stored(AnalysedImageUrl(imageData), analysis.value)))
  }

  /** The forwarding branch of the drawing channel's loop. */
  method ForwardBranch(manager: ConnectionManager, wire: Wire, ws: Conn, canvasId: string, imageData: string,
                       ghost conns: seq<Conn>)
    returns (exit: Exit)
    requires conns == ConnectionsOf(manager.activeConnections, canvasId)
    modifies wire`sent
    ensures exit == ForwardEffect(imageData, ws, conns, wire.broken).exit
    ensures wire.sent == old(wire.sent) + ForwardEffect(imageData, ws, conns, wire.broken).sent
  {
    var f := manager.ForwardImage(canvasId, imageData, wire);
    if f.Fail? {
      return ServerClose;
    }
    var r := wire.SendText(ws, Notice("success", ForwardedMessage));
    exit := if r.Ok? then KeepOpen else ServerClose;
  }

  /** The analysis branch of the drawing channel's loop, with its `except`. */
  method AnalysisBranch(service: DrawingServiceImpl, wire: Wire, ws: Conn, canvasId: string, imageData: Option<string>,
                        vision: Outcome<string>, ghost session: DrawingData?)
    returns (exit: Exit)
    requires service.Valid()
    requires session == (if canvasId in service.drawingData then service.drawingData[canvasId] else null)
    modifies (if canvasId in service.drawingData then {service.drawingData[canvasId]} else {}), wire`sent
    ensures var e := AnalysisEffect(imageData, vision, ws, wire.broken);
            && exit == e.exit
            && wire.sent == old(wire.sent) + e.sent
            && (session != null ==> session.State() == StoreAll(old(session.State()), StoredBy(e)))
  {
    var failure: Option<string> := None;
    if vision.Fail? {
      failure := Some(vision.error);
    } else {
      var analysis := ParseAnalysis(vision.value);
      if analysis.Fail? {
        failure := Some(analysis.error);
      } else {
        if canvasId in service.drawingData {
          service.drawingData[canvasId].UpdateImage(DataUrlPrefix + Render(imageData));
          service.drawingData[canvasId].AddAnalysis(analysis.value);
        }
        var r := wire.SendText(ws, AnalysisReply(analysis.value));
        if r.Fail? {
          failure := Some(r.error);
        }
      }
    }
    exit := KeepOpen;
    if failure.Some? {
      var r := wire.SendText(ws, Notice("error", AnalysisErrorPrefix + failure.value));
      if r.Fail? {
        exit := ServerClose;
      }
    }
  }

  /** One iteration of this variant's drawing-channel loop. */
  method DrawingChannelStep(manager: ConnectionManager, service: DrawingServiceImpl, wire: Wire, ws: Conn,
                            canvasId: string, msg: DrawingInbound, vision: Outcome<string>, ghost conns: seq<Conn>,
                            ghost session: DrawingData?)
    returns (exit: Exit)
    requires service.Valid() && conns == ConnectionsOf(manager.activeConnections, canvasId)
    requires session == (if canvasId in service.drawingData then service.drawingData[canvasId] else null)
    modifies (if canvasId in service.drawingData then {service.drawingData[canvasId]} else {}), wire`sent
    ensures var e := ForwardingStep(msg, vision, ws, conns, wire.broken);
            && exit == e.exit
            && wire.sent == old(wire.sent) + e.sent
            && (session != null ==> session.State() == StoreAll(old(session.State()), StoredBy(e)))
  {
    match msg
    case DrawingClosed =>
      exit := ClientGone;
    case NotAnObject =>
      exit := ServerClose;
    case InvalidJson =>
      var r := wire.SendText(ws, Notice("error", InvalidJsonMessage));
      exit := if r.Ok? then KeepOpen else ServerClose;
    case Received(obj) =>
      var imageData := Get(obj, "image_data");
      if Truthy(imageData) {
        exit := ForwardBranch(manager, wire, ws, canvasId, imageData.value, conns);
      } else {
        exit := AnalysisBranch(service, wire, ws, canvasId, imageData, vision, session);
      }
  }

  /** The steps of a sequence of drawing-channel messages. */
  function ForwardingSteps(msgs: seq<DrawingInbound>, visions: seq<Outcome<string>>, ws: Conn, conns: seq<Conn>,
                           broken: map<Conn, string>): seq<DrawingEffect>
    requires |visions| == |msgs|
  {
    seq(|msgs|, i requires 0 <= i < |msgs| => ForwardingStep(msgs[i], visions[i], ws, conns, broken))
  }

  /** The `i`th of `effects` is the step of the `i`th message. */
  predicate IsForwardingStep(effects: seq<DrawingEffect>, msgs: seq<DrawingInbound>, visions: seq<Outcome<string>>,
                             ws: Conn, conns: seq<Conn>, broken: map<Conn, string>, i: nat)
    requires i < |effects| == |msgs| == |visions|
  {
    effects[i] == ForwardingStep(msgs[i], visions[i], ws, conns, broken)
  }

  /** `effects` are the steps of the messages, one per message. */
  predicate AreForwardingSteps(effects: seq<DrawingEffect>, msgs: seq<DrawingInbound>, visions: seq<Outcome<string>>,
                               ws: Conn, conns: seq<Conn>, broken: map<Conn, string>)
  {
    && |effects| == |msgs| == |visions|
    && forall i: nat :: i < |msgs| ==> IsForwardingStep(effects, msgs, visions, ws, conns, broken, i)
  }

  lemma ForwardingStepsAre(msgs: seq<DrawingInbound>, visions: seq<Outcome<string>>, ws: Conn, conns: seq<Conn>,
                           broken: map<Conn, string>)
    requires |visions| == |msgs|
    ensures AreForwardingSteps(ForwardingSteps(msgs, visions, ws, conns, broken), msgs, visions, ws, conns, broken)
  {
  }

  /** The next message through the channel step, its effect read off `effects`. */
  method DrawingMessageAt(manager: ConnectionManager, service: DrawingServiceImpl, wire: Wire, ws: Conn,
                          canvasId: string, msgs: seq<DrawingInbound>, visions: seq<Outcome<string>>, i: nat,
                          ghost conns: seq<Conn>, ghost session: DrawingData?, ghost effects: seq<DrawingEffect>)
    returns (exit: Exit)
    requires service.Valid() && i < |msgs|
    requires conns == ConnectionsOf(manager.activeConnections, canvasId)
    requires session == (if canvasId in service.drawingData then service.drawingData[canvasId] else null)
    requires AreForwardingSteps(effects, msgs, visions, ws, conns, wire.broken)
    modifies (if canvasId in service.drawingData then {service.drawingData[canvasId]} else {}), wire`sent
    ensures exit == effects[i].exit && wire.sent == old(wire.sent) + effects[i].sent
    ensures session != null ==> session.State() == StoreAll(old(session.State()), StoredBy(effects[i]))
  {
    assert IsForwardingStep(effects, msgs, visions, ws, conns, wire.broken, i);
    exit := DrawingChannelStep(manager, service, wire, ws, canvasId, msgs[i], visions[i], conns, session);
  }

  /** One pass of handle_drawing_websocket's loop over the next message (`effects` are the
      steps of all the messages, `session` the canvas's session or null): from the state the
      first `i` messages left, starting from the wire log `sent0` and the session state
      `start`, to the state the first `i + 1` leave. */
  method DrawingIteration(manager: ConnectionManager, service: DrawingServiceImpl, wire: Wire, ws: Conn,
                          canvasId: string, msgs: seq<DrawingInbound>, visions: seq<Outcome<string>>, i: nat,
                          ghost conns: seq<Conn>, ghost effects: seq<DrawingEffect>, ghost session: DrawingData?,
                          ghost sent0: seq<Delivery>, ghost start: SessionState)
    returns (exit: Exit)
    requires service.Valid() && |visions| == |msgs| && i < |msgs|
    requires conns == ConnectionsOf(manager.activeConnections, canvasId)
    requires session == (if canvasId in service.drawingData then service.drawingData[canvasId] else null)
    requires AreForwardingSteps(effects, msgs, visions, ws, conns, wire.broken)
    requires var run := RunDrawing(effects[..i]);
             run.exit == KeepOpen && wire.sent == sent0 + run.sent && (session != null ==> session.State() == StoreAll(start, run.stored))
    modifies (if canvasId in service.drawingData then {service.drawingData[canvasId]} else {}), wire`sent
    ensures var run := RunDrawing(effects[..i + 1]);
            && exit == run.exit && i + 1 == run.handled && wire.sent == sent0 + run.sent
            && (session != null ==> session.State() == StoreAll(start, run.stored))
  {
    ghost var e := effects[i];
    ghost var prior := RunDrawing(effects[..i]);
    RunDrawingNext(effects, i);
    StoreAllConcat(start, prior.stored, StoredBy(e));
    ghost var sentBefore := wire.sent;
    exit := DrawingMessageAt(manager, service, wire, ws, canvasId, msgs, visions, i, conns, session, effects);
    assert wire.sent == sent0 + (prior.sent + e.sent) by {
      assert wire.sent == sentBefore + e.sent;
    }
  }

  /** The receive loop of handle_drawing_websocket after its handshake: handle the messages
      until one ends the loop. Images reach the canvas's registered connections; the session
      receives the analyses of the handled messages in order. */
  method DrawingLoop(manager: ConnectionManager, service: DrawingServiceImpl, wire: Wire, ws: Conn, canvasId: string,
                     msgs: seq<DrawingInbound>, visions: seq<Outcome<string>>, ghost conns: seq<Conn>,
                     ghost session: DrawingData?, ghost effects: seq<DrawingEffect>)
    returns (exit: Exit, handled: nat)
    requires service.Valid() && conns == ConnectionsOf(manager.activeConnections, canvasId)
    requires session == (if canvasId in service.drawingData then service.drawingData[canvasId] else null)
    requires AreForwardingSteps(effects, msgs, visions, ws, conns, wire.broken)
    modifies (if canvasId in service.drawingData then {service.drawingData[canvasId]} else {}), wire`sent
    ensures var run := RunDrawing(effects);
            && exit == run.exit && handled == run.handled
            && wire.sent == old(wire.sent) + run.sent
            && (session != null ==> session.State() == StoreAll(old(session.State()), run.stored))
  {
    ghost var start := if session != null then session.State() else SessionState("", None, [], None, []);
    exit, handled := KeepOpen, 0;
    while exit == KeepOpen && handled < |msgs|
      invariant handled <= |msgs|
      invariant var run := RunDrawing(effects[..handled]);
                && exit == run.exit && handled == run.handled
                && wire.sent == old(wire.sent) + run.sent
                && (session != null ==> session.State() == StoreAll(start, run.stored))
      decreases |msgs| - handled
    {
      exit := DrawingIteration(manager, service, wire, ws, canvasId, msgs, visions, handled, conns, effects, session,
                               old(wire.sent), start);
      handled := handled + 1;
    }
    RunDrawingPrefix(effects, handled);
  }


  /** handle_drawing_websocket: the handshake on the first message, then, when it succeeded,
      the receive loop over the rest for the canvas the request names. */
  method ServeDrawingChannel(manager: ConnectionManager, service: DrawingServiceImpl, wire: Wire, ws: Conn,
                             first: DrawingInbound, request: Outcome<string>, msgs: seq<DrawingInbound>,
                             visions: seq<Outcome<string>>)
    returns (exit: Exit, handled: nat)
    requires service.Valid() && |visions| == |msgs|
    modifies service.drawingData.Values, wire`sent
    ensures request.Fail? || !first.Received? || ws in wire.broken ==>
              && exit == (if first.DrawingClosed? then ClientGone else ServerClose) && handled == 0
              && wire.sent == old(wire.sent) + (if first.Received? && request.Ok? then SentTo(ws, [Ack], wire.broken) else [])
              && forall d :: d in service.drawingData.Values ==> d.State() == old(d.State())
    ensures request.Ok? && first.Received? && ws !in wire.broken ==>
              var conns := ConnectionsOf(manager.activeConnections, request.value);
              var run := RunDrawing(ForwardingSteps(msgs, visions, ws, conns, wire.broken));
              && exit == run.exit && handled == run.handled
              && wire.sent == old(wire.sent) + [Delivery(ws, Ack)] + run.sent
              && (request.value in service.drawingData ==>
                    var s := service.drawingData[request.value];
                    s.State() == StoreAll(old(s.State()), run.stored))
              && forall k :: k in service.drawingData && k != request.value ==>
                   service.drawingData[k].State() == old(service.drawingData[k].State())
  {
    var canvasId;
    exit, canvasId := Handshake(wire, ws, first, request);
    handled := 0;
    if exit == KeepOpen {
      ghost var conns := ConnectionsOf(manager.activeConnections, canvasId);
      ghost var session: DrawingData? := if canvasId in service.drawingData then service.drawingData[canvasId] else null;
      ForwardingStepsAre(msgs, visions, ws, conns, wire.broken);
      exit, handled := DrawingLoop(manager, service, wire, ws, canvasId, msgs, visions, conns, session,
                                   ForwardingSteps(msgs, visions, ws, conns, wire.broken));
    }
  }

  /** A truthy image is forwarded to every connection of the canvas, in registration order,
      and acknowledged to the sender; nothing is analysed or stored. */
  lemma ImageForwardedToCanvas(obj: Obj, vision: Outcome<string>, ws: Conn, conns: seq<Conn>, broken: map<Conn, string>)
    requires Truthy(Get(obj, "image_data"))
    requires ws !in broken && forall c :: c in conns ==> c !in broken
    ensures ForwardingStep(Received(obj), vision, ws, conns, broken)
              == DrawingEffect(Deliveries(conns, ImageForward(Get(obj, "image_data").value))
                                  + [Delivery(ws, Notice("success", ForwardedMessage))], None, KeepOpen)
  {
    FirstBrokenAt(conns, broken, |conns|);
    assert conns[..|conns|] == conns;
  }

  /** The analysis branch runs only for a message whose image data is missing or empty, so
      the image url stored with an analysis never carries image data. */
  lemma AnalysedUrlCarriesNoImage(msg: DrawingInbound, vision: Outcome<string>, ws: Conn, conns: seq<Conn>,
                                  broken: map<Conn, string>)
    requires ForwardingStep(msg, vision, ws, conns, broken).stored.Some?
    ensures var url := ForwardingStep(msg, vision, ws, conns, broken).stored.value.imageUrl;
            url == DataUrlPrefix || url == DataUrlPrefix + "None"
  {
  }

  /** A successful analysis is stored and sent back to the sender as it was parsed. */
  lemma AnalysisAnswered(obj: Obj, text: string, ws: Conn, conns: seq<Conn>, broken: map<Conn, string>)
    requires !Truthy(Get(obj, "image_data")) && WellFormed(Split(text, '\n')) && ws !in broken
    ensures var a := AnalysisOf(Split(text, '\n'));
            ForwardingStep(Received(obj), Ok(text), ws, conns, broken)
              == DrawingEffect([Delivery(ws, AnalysisReply(a))],
                                  Some(Stored(AnalysedImageUrl(Get(obj, "image_data")), a)), KeepOpen)
  {
    ParsedLastWins(text);
  }

  /** A failed analysis is answered with an error notice carrying the exception's message and
      stores nothing; a marked line without a colon reports the parser's IndexError. */
  lemma AnalysisErrorAnswered(obj: Obj, text: string, ws: Conn, conns: seq<Conn>, broken: map<Conn, string>)
    requires !Truthy(Get(obj, "image_data")) && !WellFormed(Split(text, '\n')) && ws !in broken
    ensures ForwardingStep(Received(obj), Ok(text), ws, conns, broken)
              == DrawingEffect([Delivery(ws, Notice("error", AnalysisErrorPrefix + IndexErrorText))], None, KeepOpen)
  {
    ParsedLastWins(text);
  }
}
