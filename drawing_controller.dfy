/** The response shaping of app/controllers/drawing_controller.py: the redirect url and body
    of a new session, the body of a completed one, and how every exception raised inside a
    handler's `try`, the 400 and the 404 included, ends as a 500. */
module DrawingController {
  import opened Common
  import opened Text
  import opened DrawingModel
  import opened DrawingService

  /** The start of the detail of every 500. */
  const ServerErrorPrefix: string := "서버 오류가 발생했습니다: "

  /** The detail of the 404 for a canvas without a session. */
  const NotFoundDetail: string := "Drawing data not found"

  /** The message of the TypeError that base64-encoding None raises. */
  const EncodeNoneError: string := "a bytes-like object is required, not 'NoneType'"

  /** An exception raised inside a handler's `try`. */
  datatype Raised = HttpRaised(status: nat, detail: string) | TypeErrorRaised(message: string)

  /** A handler's answer: the success body, or the 500 whose detail is ServerErrorPrefix
      followed by the text of the exception that was caught. */
  datatype Reply<T> = Success(body: T) | ServerError(cause: Raised)

  /** The body of a new session: the page to open, the greeting's audio (base64-encoded on
      the wire) and the greeting's text. */
  datatype NewDrawingBody = NewDrawingBody(redirectUrl: string, initialAudio: Bytes, initialText: string)

  /** The session fields the new-session response reads. */
  datatype StoredSession = StoredSession(audioData: Option<Bytes>, prompt: string)

  /** The voice-chat page with the session's robot, canvas and name, and the age when it is
      truthy. */
  function RedirectUrl(request: NewDrawingRequest): string
  {
    "/static/voice_chat.html?robot_id=" + request.robotId + "&canvas_id=" + request.canvasId
    + "&name=" + request.name
    + if request.age.Some? && request.age.value != 0 then "&age=" + IntToDecimal(request.age.value) else ""
  }

  /** A service result starting with "error" raises a 400 whose detail is the result with
      every "error: " removed. */
  function ServiceFailure(result: string): Option<Raised>
  {
    if StartsWith(result, "error") then Some(HttpRaised(400, RemoveAll(result, "error: "))) else None
  }

  /** What POST /drawing/new answers, given the service's result and the session then stored
      under the canvas id. */
  function NewDrawingReply(request: NewDrawingRequest, result: string, session: Option<StoredSession>): Reply<NewDrawingBody>
  {
    var failure := ServiceFailure(result);
    if failure.Some? then ServerError(failure.value)
    else if session.None? then ServerError(HttpRaised(404, NotFoundDetail))
    else if session.value.audioData.None? then ServerError(TypeErrorRaised(EncodeNoneError))
    else Success(NewDrawingBody(RedirectUrl(request), session.value.audioData.value, session.value.prompt))
  }

  /** The url carries the age only when it is truthy, and then as its last parameter. */
  lemma RedirectUrlAge(request: NewDrawingRequest)
    ensures request.age.Some? && request.age.value != 0 ==>
              var tail := "&age=" + IntToDecimal(request.age.value);
              |tail| <= |RedirectUrl(request)| && RedirectUrl(request)[|RedirectUrl(request)| - |tail|..] == tail
    ensures request.age == None || request.age == Some(0) ==>
              RedirectUrl(request) == RedirectUrl(request.(age := None))
  {
  }

  /** Two sessions that differ only in their truthy ages get different urls. */
  lemma RedirectUrlDistinguishesAges(request: NewDrawingRequest, a: int, b: int)
    requires a != 0 && b != 0
    requires RedirectUrl(request.(age := Some(a))) == RedirectUrl(request.(age := Some(b)))
    ensures a == b
  {
    var base := "/static/voice_chat.html?robot_id=" + request.robotId + "&canvas_id=" + request.canvasId
                + "&name=" + request.name + "&age=";
    var ua, ub := RedirectUrl(request.(age := Some(a))), RedirectUrl(request.(age := Some(b)));
    assert ua == base + IntToDecimal(a);
    assert ub == base + IntToDecimal(b);
    assert IntToDecimal(a) == ua[|base|..];
    assert IntToDecimal(b) == ub[|base|..];
    IntToDecimalInjective(a, b);
  }

  /** A failed greeting synthesis reaches the client as a 500 caused by a 400 whose detail is
      the synthesis's own message, provided that message holds no "error: " itself. */
  lemma SynthesisFailureDetail(request: NewDrawingRequest, m: string, session: Option<StoredSession>)
    requires !Contains(m, "error: ")
    ensures NewDrawingReply(request, NewDrawingResult(Fail(m)), session) == ServerError(HttpRaised(400, m))
  {
    var result := NewDrawingResult(Fail(m));
    assert result == "error: " + m;
    RemoveAllLeading("error: ", m);
    RemoveAllAbsent(m, "error: ");
  }

  /** POST /drawing/new: start the session, then shape the answer from what is stored. On a
      successful synthesis the client gets the page, the greeting's audio and its text;
      otherwise a 500 carrying the synthesis's failure. */
  method CreateNewDrawing(service: DrawingServiceImpl, request: NewDrawingRequest, tts: Outcome<Bytes>)
    returns (reply: Reply<NewDrawingBody>)
    requires service.Valid()
    modifies service
    ensures service.Valid()
    ensures request.canvasId in service.drawingData && fresh(service.drawingData[request.canvasId])
    ensures service.drawingData == old(service.drawingData)[request.canvasId := service.drawingData[request.canvasId]]
    ensures var s := service.drawingData[request.canvasId];
            && s.robotId == request.robotId && s.name == request.name
            && s.age == request.age && s.canvasId == request.canvasId
            && s.prompt == Greeting(request.age, request.name)
            && s.chatHistory == [ChatMessage("ai", Greeting(request.age, request.name))]
            && s.audioData == (if tts.Ok? then Some(tts.value) else None)
            && s.imageUrl == None && s.analyses == []
    ensures reply == if tts.Ok?
                     then Success(NewDrawingBody(RedirectUrl(request), tts.value, Greeting(request.age, request.name)))
                     else ServerError(HttpRaised(400, RemoveAll("error: " + tts.error, "error: ")))
  {
    var result := service.HandleNewDrawing(request, tts);
    var stored := service.drawingData[request.canvasId];
    reply := NewDrawingReply(request, result, Some(StoredSession(stored.audioData, stored.prompt)));
    if tts.Ok? {
      assert !StartsWith("success", "error");
    } else {
      assert StartsWith(result, "error");
    }
  }

  /** conversation_history: each turn as "role: text", in order. */
  function ConversationHistory(history: seq<ChatMessage>): seq<string>
  {
    seq(|history|, i requires 0 <= i < |history| => history[i].role + ": " + history[i].text)
  }

  /** Reading a flattened turn back: the role up to the first colon, the text after ": ". */
  function TurnOf(line: string): ChatMessage
  {
    var i := IndexOf(line, ':');
    if i + 2 <= |line| then ChatMessage(line[..i], line[i + 2..]) else ChatMessage(line, "")
  }

  /** The flattened history has one line per turn, in order, and every turn whose role has no
      colon (as "user", "ai" and "assistant") reads back from its line. */
  lemma ConversationHistoryRoundTrip(history: seq<ChatMessage>)
    requires forall i :: 0 <= i < |history| ==> ':' !in history[i].role
    ensures |ConversationHistory(history)| == |history|
    ensures forall i :: 0 <= i < |history| ==> TurnOf(ConversationHistory(history)[i]) == history[i]
  {
    forall i | 0 <= i < |history|
      ensures TurnOf(ConversationHistory(history)[i]) == history[i]
    {
      var m := history[i];
      var line := m.role + ": " + m.text;
      assert line == m.role + (": " + m.text);
      assert IndexOf(": " + m.text, ':') == 0;
      IndexOfAppend(m.role, ": " + m.text, ':');
      assert IndexOf(line, ':') == |m.role|;
      assert line[..|m.role|] == m.role;
      assert line[|m.role| + 2..] == m.text;
    }
  }

  /** The fields of a completed session the completion response reads. The completion flow
      that fills them is not part of this model, so they are carried as opaque text. */
  datatype CompletedSession =
    CompletedSession(analysis: string, summary: string, imageId: string, drawingName: string,
                     chatHistory: seq<ChatMessage>)

  /** The body of a completed session. */
  datatype DoneBody =
    DoneBody(analysis: string, summary: string, conversationHistory: seq<string>,
             backgroundImage: string, drawingName: string)

  /** What POST /drawing/done answers, given the completion's result and the stored session. */
  function DoneReply(result: string, session: Option<CompletedSession>): Reply<DoneBody>
  {
    var failure := ServiceFailure(result);
    if failure.Some? then ServerError(failure.value)
    else if session.None? then ServerError(HttpRaised(404, NotFoundDetail))
    else
      var s := session.value;
      Success(DoneBody(s.analysis, s.summary, ConversationHistory(s.chatHistory), s.imageId, s.drawingName))
  }

  /** Both handlers answer an error result with a 500 caused by the 400, and a missing session
      with a 500 caused by the 404: no 400 or 404 reaches the client. */
  lemma FailuresBecome500(request: NewDrawingRequest, result: string, stored: Option<StoredSession>,
                          completed: Option<CompletedSession>)
    ensures StartsWith(result, "error") ==>
              && NewDrawingReply(request, result, stored) == ServerError(HttpRaised(400, RemoveAll(result, "error: ")))
              && DoneReply(result, completed) == ServerError(HttpRaised(400, RemoveAll(result, "error: ")))
    ensures !StartsWith(result, "error") && stored.None? ==>
              NewDrawingReply(request, result, stored) == ServerError(HttpRaised(404, NotFoundDetail))
    ensures !StartsWith(result, "error") && completed.None? ==>
              DoneReply(result, completed) == ServerError(HttpRaised(404, NotFoundDetail))
  {
  }
}
