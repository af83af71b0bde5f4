/** The session store and turn orchestration of
    app/services/drawing_service/drawing_service_impl.py: a map from canvas id to session,
    the greeting of a new session, and one voice turn with its apology fallback. */
module DrawingService {
  import opened Common
  import opened Text
  import opened DrawingModel

  /** The fixed reply used whenever a voice turn fails. */
  const Apology: string := "죄송해요, 잘 이해하지 못했어요. 다시 한 번 말씀해 주시겠어요?"

  /** The indentation the triple-quoted greeting carries on its continuation lines. */
  const Indent: string := "                            "

  /** f"{age}살" when the age is truthy (present and non-zero), otherwise "어린". */
  function AgeText(age: Option<int>): string
  {
    if age.Some? && age.value != 0 then IntToDecimal(age.value) + "살" else "어린"
  }

  /** The greeting of a new session, embedding the age text and the child's name. */
  function Greeting(age: Option<int>, name: string): string
  {
    "안녕!, 귀여운 " + AgeText(age) + " 나이의 " + name + " 친구야!!\n"
    + Indent + "만나서 너무 반가워!!  \n"
    + Indent + "오늘 우리 함께 재미있는 그림을 그려볼까요? \n"
    + Indent + "어떤 멋진 그림을 그리고 싶은지 이야기해주세요!"
  }

  /** A missing age and an age of 0 both read as "young"; any other age is spelled out. */
  lemma AgeTextCases(age: Option<int>)
    ensures AgeText(age) == "어린" <==> age == None || age == Some(0)
    ensures age.Some? && age.value != 0 ==>
              AgeText(age) == IntToDecimal(age.value) + "살"
  {
    if age.Some? && age.value != 0 {
      var t := IntToDecimal(age.value) + "살";
      assert t[|t| - 1] == '살';
      assert "어린"[1] == '린';
    }
  }

  /** Two different non-zero ages never produce the same age text. */
  lemma AgeTextInjective(a: int, b: int)
    requires a != 0 && b != 0 && AgeText(Some(a)) == AgeText(Some(b))
    ensures a == b
  {
    var ta, tb := IntToDecimal(a), IntToDecimal(b);
    assert ta + "살" == tb + "살";
    assert |ta| == |tb|;
    assert ta == (ta + "살")[..|ta|];
    assert tb == (tb + "살")[..|tb|];
    IntToDecimalInjective(a, b);
  }

  /** The greeting contains the age text and the name. */
  lemma GreetingMentions(age: Option<int>, name: string)
    ensures Contains(Greeting(age, name), AgeText(age))
    ensures Contains(Greeting(age, name), name)
  {
    var g := Greeting(age, name);
    var p1 := "안녕!, 귀여운 ";
    var t := AgeText(age);
    var p2 := " 나이의 ";
    assert g[|p1|..|p1| + |t|] == t;
    assert OccursAt(g, t, |p1|);
    ContainsIff(g, t);
    var j := |p1| + |t| + |p2|;
    assert g[j..j + |name|] == name;
    assert OccursAt(g, name, j);
    ContainsIff(g, name);
  }

  /** The session of the greeting scenario: a five-year-old is greeted with "5살". */
  lemma GreetingForFive(name: string)
    ensures Contains(Greeting(Some(5), name), "5살")
  {
    assert IntToDecimal(5) == "5";
    assert AgeText(Some(5)) == "5살";
    GreetingMentions(Some(5), name);
  }

  /** What `handle_new_drawing` returns: "success", or "error: " and the message of the
      exception that the speech synthesis raised. */
  function NewDrawingResult(tts: Outcome<Bytes>): (r: string)
    ensures r == "success" <==> tts.Ok?
    ensures StartsWith(r, "error") <==> tts.Fail?
  {
    if tts.Ok? then
      assert "success"[0] != "error"[0];
      "success"
    else
      var r := "error: " + tts.error;
      assert r[..5] == "error" && r[0] != "success"[0];
      r
  }

  /** The result of one voice turn: the reply text and its synthesized audio. */
  datatype AudioProcessingResult = AudioProcessingResult(text: string, audioData: Bytes)

  /** What each external call of a voice turn does: the transcription of the child's audio,
      the chat completion, the synthesis of the reply, and the synthesis of the apology. */
  datatype VoiceCalls = VoiceCalls(transcribe: Outcome<string>, chat: Outcome<string>,
                                   ttsReply: Outcome<Bytes>, ttsApology: Outcome<Bytes>)

  predicate TurnSucceeds(calls: VoiceCalls) {
    calls.transcribe.Ok? && calls.chat.Ok? && calls.ttsReply.Ok?
  }

  /** The turns a voice turn appends to an existing session: each step's turn as far as the
      calls succeed, then the apology when any of them failed. */
  function VoiceTurnEntries(calls: VoiceCalls): seq<ChatMessage>
  {
    if calls.transcribe.Fail? then [ChatMessage("ai", Apology)]
    else if calls.chat.Fail? then [ChatMessage("user", calls.transcribe.value), ChatMessage("ai", Apology)]
    else
      var turn := [ChatMessage("user", calls.transcribe.value), ChatMessage("ai", calls.chat.value)];
      if calls.ttsReply.Fail? then turn + [ChatMessage("ai", Apology)] else turn
  }

  /** What `process_audio` returns or raises. Only a session that exists can succeed; every
      failure answers with the apology, unless synthesizing the apology fails too, in which
      case that exception propagates. */
  function VoiceTurnResult(known: bool, calls: VoiceCalls): Outcome<AudioProcessingResult>
  {
    if known && TurnSucceeds(calls) then
      Ok(AudioProcessingResult(calls.chat.value, calls.ttsReply.value))
    else if calls.ttsApology.Ok? then
      Ok(AudioProcessingResult(Apology, calls.ttsApology.value))
    else
      Fail(calls.ttsApology.error)
  }

  /** A successful turn appends exactly the user's words and then the reply. A failed turn
      appends a prefix of those two turns followed by the apology exactly once. */
  lemma VoiceTurnShape(calls: VoiceCalls)
    ensures TurnSucceeds(calls) ==>
              VoiceTurnEntries(calls) == [ChatMessage("user", calls.transcribe.value),
                                          ChatMessage("ai", calls.chat.value)]
    ensures !TurnSucceeds(calls) ==>
              var e := VoiceTurnEntries(calls);
              1 <= |e| <= 3 && e[|e| - 1] == ChatMessage("ai", Apology)
              && (|e| >= 2 ==> e[0] == ChatMessage("user", calls.transcribe.value))
              && (|e| == 3 ==> e[1] == ChatMessage("ai", calls.chat.value))
              && (|e| == 1 <==> calls.transcribe.Fail?)
              && (|e| == 3 <==> calls.transcribe.Ok? && calls.chat.Ok?)
  {
  }

  /** A turn returns the chat reply exactly when the session exists and every call succeeds;
      otherwise it returns the apology or raises the apology synthesis's own exception. */
  lemma VoiceTurnResultCases(known: bool, calls: VoiceCalls)
    ensures VoiceTurnResult(known, calls).Fail? <==>
              !(known && TurnSucceeds(calls)) && calls.ttsApology.Fail?
    ensures VoiceTurnResult(known, calls).Ok? && !(known && TurnSucceeds(calls)) ==>
              VoiceTurnResult(known, calls).value.text == Apology
  {
  }

  /** The in-memory session store. */
  class DrawingServiceImpl {
    var drawingData: map<string, DrawingData>

    /** No two canvas ids share one session object. */
    ghost predicate Valid()
      reads this
    {
      forall k1, k2 :: k1 in drawingData && k2 in drawingData && k1 != k2 ==> drawingData[k1] != drawingData[k2]
    }

    constructor ()
      ensures Valid() && drawingData == map[]
    {
      drawingData := map[];
    }

    /** Starts a session: stores a fresh DrawingData under the canvas id (replacing any earlier
        one), records the greeting as prompt and as the first "ai" turn, then synthesizes it.
        Storing happens before synthesis, so a failed synthesis leaves the session stored
        with its greeting and no audio. */
    method HandleNewDrawing(request: NewDrawingRequest, tts: Outcome<Bytes>) returns (result: string)
      requires Valid()
      modifies this
      ensures Valid()
      ensures request.canvasId in drawingData && fresh(drawingData[request.canvasId])
      ensures drawingData == old(drawingData)[request.canvasId := drawingData[request.canvasId]]
      ensures var s := drawingData[request.canvasId];
              && s.robotId == request.robotId && s.name == request.name
              && s.age == request.age && s.canvasId == request.canvasId
              && s.prompt == Greeting(request.age, request.name)
              && s.chatHistory == [ChatMessage("ai", Greeting(request.age, request.name))]
              && s.audioData == (if tts.Ok? then Some(tts.value) else None)
              && s.imageUrl == None && s.analyses == []
      ensures result == NewDrawingResult(tts)
    {
      var session := new DrawingData(request.robotId, request.name, request.age, request.canvasId);
      drawingData := drawingData[request.canvasId := session];
      var initialText := Greeting(request.age, request.name);
      session.prompt := initialText;
      session.AddMessage("ai", initialText);
      if tts.Fail? {
        return "error: " + tts.error;
      }
      session.audioData := Some(tts.value);
      return "success";
    }

    /** One voice turn. With a session: append the transcript as a "user" turn, the chat reply
        as an "ai" turn, and return the reply with its audio. On an unknown canvas or any
        failed call, append the apology (to an existing session only) and return it with
        its audio; if that synthesis fails too, its exception propagates. Only the history of
        the addressed session changes. */
    method ProcessAudio(audio: Bytes, robotId: string, canvasId: string, calls: VoiceCalls)
      returns (r: Outcome<AudioProcessingResult>)
      requires Valid()
      modifies if canvasId in drawingData then {drawingData[canvasId]} else {}
      ensures canvasId in drawingData ==>
                var s := drawingData[canvasId];
                && s.chatHistory == old(s.chatHistory) + VoiceTurnEntries(calls)
                && s.prompt == old(s.prompt) && s.audioData == old(s.audioData)
                && s.imageUrl == old(s.imageUrl) && s.analyses == old(s.analyses)
      ensures forall k :: k in drawingData && k != canvasId ==>
                drawingData[k].chatHistory == old(drawingData[k].chatHistory)
      ensures r == VoiceTurnResult(canvasId in drawingData, calls)
    {
      var session: DrawingData? := if canvasId in drawingData then drawingData[canvasId] else null;
      if session != null {
        if calls.transcribe.Ok? {
          session.AddMessage("user", calls.transcribe.value);
          if calls.chat.Ok? {
            session.AddMessage("ai", calls.chat.value);
            if calls.ttsReply.Ok? {
              return Ok(AudioProcessingResult(calls.chat.value, calls.ttsReply.value));
            }
          }
        }
        session.AddMessage("ai", Apology);
      }
      if calls.ttsApology.Fail? {
        return Fail(calls.ttsApology.error);
      }
      return Ok(AudioProcessingResult(Apology, calls.ttsApology.value));
    }
  }
}
