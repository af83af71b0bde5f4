/** The JSON messages the two WebSocket handlers receive and send, as values. JSON text
    encoding and base64 encoding of audio are not modelled: a frame records the values that
    get encoded. */
module Messages {
  import opened Common
  import opened DrawingModel

  /** A decoded JSON object. Only string-valued keys are represented. */
  datatype Obj = Obj(fields: map<string, string>)

  /** data.get(key) */
  function Get(o: Obj, key: string): Option<string>
  {
    if key in o.fields then Some(o.fields[key]) else None
  }

  /** Python truthiness of a value read with dict.get: absent and "" are both false. */
  predicate Truthy(v: Option<string>) {
    v.Some? && v.value != ""
  }

  /** f"{v}" of a value read with dict.get: an absent value prints as "None". */
  function Render(v: Option<string>): string
  {
    if v.Some? then v.value else "None"
  }

  /** An accepted WebSocket, known only by its identity. */
  datatype Conn = Conn(id: nat)

  /** The messages the server sends. */
  datatype Frame =
    | VoiceUser(text: string)                     // {"type":"voice","text":t,"is_user":true}
    | VoiceReply(text: string, audio: Bytes)      // {"type":"voice","text":t,"audio_data":b64(a),"is_user":false}
    | ImageForward(imageData: string)             // {"type":"image","image_data":d}
    | Ack                                         // {"status":"success"}
    | Notice(status: string, message: string)     // {"status":s,"message":m}
    | AnalysisReply(analysis: DrawingAnalysis)    // {"status":"success","analysis":{colors,emotion,content,context}}
    | Echo(received: Obj)                         // {"status":"success","message":"Message received","received_data":o}

  /** One frame sent to one connection. */
  datatype Delivery = Delivery(to: Conn, frame: Frame)

  /** What one receive on the voice channel yields. */
  datatype VoiceInbound =
    | VoiceMessage(audio: Bytes)                  // {"type":"voice","audio_data":...}, decoded
    | ImageMessage(imageData: Option<string>)     // {"type":"image", "image_data"?: ...}
    | OtherMessage                                // any other "type"
    | Unreadable                                  // not JSON, no "type", or undecodable "audio_data": the handler raises
    | VoiceClosed                                 // the client went away (WebSocketDisconnect)

  /** What one receive on the drawing channel yields. */
  datatype DrawingInbound =
    | Received(obj: Obj)                          // a JSON object
    | NotAnObject                                 // valid JSON that is not an object: `.get` raises
    | InvalidJson                                 // receive_json raised JSONDecodeError
    | DrawingClosed                               // the client went away (WebSocketDisconnect)

  /** How one iteration of a receive loop ends: the loop goes on, the client has gone away,
      or an exception reached the handler's last `except` and the server closes the socket. */
  datatype Exit = KeepOpen | ClientGone | ServerClose
}
