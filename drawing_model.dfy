/** The records of app/models/drawing.py: the new-session request, one conversation turn,
    and the mutable per-canvas session. */
module DrawingModel {
  import opened Common

  /** Body of a new-drawing request. `age` is optional; the others are required strings. */
  datatype NewDrawingRequest = NewDrawingRequest(robotId: string, name: string, age: Option<int>, canvasId: string)

  /** Request validation: every required field must be present, and a missing age becomes None. */
  function NewDrawingRequestOf(robotId: Option<string>, name: Option<string>, age: Option<int>,
                               canvasId: Option<string>): (r: Option<NewDrawingRequest>)
    ensures r.Some? <==> robotId.Some? && name.Some? && canvasId.Some?
    ensures r.Some? ==> r.value.robotId == robotId.value && r.value.name == name.value
                        && r.value.canvasId == canvasId.value && r.value.age == age
  {
    if robotId.Some? && name.Some? && canvasId.Some? then
      Some(NewDrawingRequest(robotId.value, name.value, age, canvasId.value))
    else None
  }

  /** One turn of the conversation. The role is free text: the service writes "ai" and "user",
      the image handler writes "assistant". The creation time is not modelled. */
  datatype ChatMessage = ChatMessage(role: string, text: string)

  /** The four fields the keyword parser extracts from a vision answer. */
  datatype DrawingAnalysis = DrawingAnalysis(colors: seq<string>, emotion: string, content: string, context: string)

  /** The mutable fields of a canvas session, as one value. */
  datatype SessionState = SessionState(prompt: string, audioData: Option<Bytes>, chatHistory: seq<ChatMessage>,
                                       imageUrl: Option<string>, analyses: seq<DrawingAnalysis>)

  /** The state of one canvas session. `imageUrl` and `analyses` are the state behind the
      `update_image` and `add_analysis` setters the socket handlers call; the other mutable
      fields are the ones the constructor initialises. */
  class DrawingData {
    const robotId: string
    const name: string
    const age: Option<int>
    const canvasId: string
    var prompt: string
    var audioData: Option<Bytes>
    var chatHistory: seq<ChatMessage>
    var imageUrl: Option<string>
    var analyses: seq<DrawingAnalysis>

    function State(): SessionState
      reads this
    {
      SessionState(prompt, audioData, chatHistory, imageUrl, analyses)
    }

    constructor (robotId: string, name: string, age: Option<int>, canvasId: string)
      ensures this.robotId == robotId && this.name == name && this.age == age && this.canvasId == canvasId
      ensures prompt == "" && audioData == None && chatHistory == []
      ensures imageUrl == None && analyses == []
    {
      this.robotId := robotId;
      this.name := name;
      this.age := age;
      this.canvasId := canvasId;
      prompt := "";
      audioData := None;
      chatHistory := [];
      imageUrl := None;
      analyses := [];
    }

    /** Appends one turn at the end; earlier turns and every other field stay as they were. */
    method AddMessage(role: string, text: string)
      modifies this`chatHistory
      ensures chatHistory == old(chatHistory) + [ChatMessage(role, text)]
    {
      chatHistory := chatHistory + [ChatMessage(role, text)];
    }

    method UpdateImage(url: string)
      modifies this`imageUrl
      ensures imageUrl == Some(url)
    {
      imageUrl := Some(url);
    }

    method AddAnalysis(analysis: DrawingAnalysis)
      modifies this`analyses
      ensures analyses == old(analyses) + [analysis]
    {
      analyses := analyses + [analysis];
    }
  }
}
