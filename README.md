# Mind in Canvas — session, registry and message-handling model

This project models the server side of a children's drawing companion, written in Dafny.
A child starts a drawing session. The robot greets them by voice. Each spoken turn is
transcribed and answered by a chat model, and the answer is spoken back. Drawings sent over a
second WebSocket are analysed by a vision model. The keyword parser reads the analysis, the
result is stored in the session, and depending on the handler variant it is spoken to every
connection of the canvas.

The modelled parts are:

- **Sessions** (`DrawingModel`, `DrawingService`). A `DrawingData` object per canvas and the
  service's store from canvas id to session.
  - `HandleNewDrawing` creates or replaces a session and records the age-dependent greeting.
  - `ProcessAudio` runs one voice turn with its apology fallback.
- **Connection registry** (`Connections`). `ConnectionManager` keeps a map from canvas id to
  the list of connections. It supports connect, disconnect, broadcast and image forwarding.
  - `Wire` is the log of every frame sent, in order.
  - The connections whose send raises are a fixed parameter.
- **Keyword parser** (`AnalysisParser`). The loop over the lines of a vision answer, with
  marker precedence 색상 > 감정 > 내용 > 문맥 and last-line-wins. It is proved equal to a
  declarative reading: each field comes from the last line of its kind.
- **WebSocket handlers**. Both variants are modelled: `SocketService` for
  `app/services/socket_service.py` (the one the routes serve) and `SocketServiceImpl` for
  `app/services/socket_service_impl.py`.
  - Each message is one step from (store, registry, message, call outcomes) to the new state,
    the frames sent, and whether the loop goes on.
  - The receive loops are proved equal to a fold of those steps (`ReceiveLoop`) that stops at
    the first step that ends the loop.
- **Response shaping** (`DrawingController`): the redirect URL, the flattened conversation
  history, and how every error inside a handler's `try` ends as a 500.
- **Python built-ins** the code relies on (`Text`): `str.split` with a one-character
  separator, `str.strip()`, the `in` substring test, `str.replace(p, "")` and `f"{int}"`.

Every call to an AI service is an argument of type `Outcome<T> = Ok(value) | Fail(error)`.
This covers transcription, chat completion, speech synthesis and vision. The handlers'
behaviour is then a function of their inputs.

## Model

| member | source | states |
|---|---|---|
| DrawingModel.NewDrawingRequestOf | app/models/drawing.py:6-10 | A request exists exactly when robot_id, name and canvas_id are all given; the fields are copied and a missing age stays None |
| DrawingModel.DrawingData.constructor | app/models/drawing.py:19-26 | A new session copies robot id, name, age and canvas id; prompt is "", audio is None, history is empty (and no image url or analyses yet) |
| DrawingModel.DrawingData.AddMessage | app/models/drawing.py:28-30 | Appends exactly one turn (role, text) at the end; earlier turns and every other field are unchanged, so the history only grows |
| DrawingModel.DrawingData.UpdateImage | app/services/socket_service.py:220 | The setter the drawing handler calls: the session's image url becomes the given url, nothing else changes |
| DrawingModel.DrawingData.AddAnalysis | app/services/socket_service.py:221 | The setter the drawing handler calls: appends the analysis at the end of the session's analyses, nothing else changes |
| Text.IndexOf | app/services/socket_service_impl.py:160-166 | Position of the first occurrence of a character (or the length): the character is there and not before it |
| Text.Split | app/services/socket_service_impl.py:152 | `s.split(sep)` yields at least one piece and no piece holds the separator |
| Text.SplitJoin | app/services/socket_service_impl.py:152 | Joining the pieces of a split with the separator gives the string back |
| Text.JoinSplit | app/services/socket_service_impl.py:152 | Splitting a join of separator-free pieces gives the pieces back |
| Text.SecondPiece | app/services/socket_service_impl.py:160-166 | On a string with the separator, `split(sep)[1]` exists and is the text between the first and the second separator (or the end) |
| Text.Strip | app/services/socket_service_impl.py:160-166 | `strip()` yields a middle slice of the string, everything cut off is whitespace, and the result neither starts nor ends with whitespace |
| Text.StripIdempotent | app/services/socket_service_impl.py:160-166 | Stripping twice is stripping once |
| Text.ContainsIff | app/services/socket_service_impl.py:159-165 | `p in s` holds exactly when p occurs in s at some position |
| Text.RemoveAll | app/controllers/drawing_controller.py:26 | `replace(p, "")` never lengthens the string |
| Text.RemoveAllAbsent | app/controllers/drawing_controller.py:26 | Removing a pattern that does not occur leaves the string unchanged |
| Text.RemoveAllLeading | app/controllers/drawing_controller.py:26 | A leading occurrence is removed and the rest is processed on its own |
| Text.IntToDecimal | app/services/drawing_service/drawing_service_impl.py:82 | `f"{n}"` is non-empty and starts with '-' exactly for negative n |
| Text.DecimalRoundTrip | app/services/drawing_service/drawing_service_impl.py:82 | Reading back the decimal digits of a natural number gives the number |
| Text.IntToDecimalInjective | app/services/drawing_service/drawing_service_impl.py:82 | Distinct integers format to distinct texts |
| Connections.Wire.SendText | app/services/socket_service.py:49 | A send appends the frame for the connection to the log, or raises the connection's exception and sends nothing |
| Connections.FanoutOutbox | app/services/socket_service_impl.py:45-49 | A fan-out gives each connection the frame once per registration of it, and nothing to any other connection |
| Connections.SentToOutbox | app/services/socket_service_impl.py:115-124 | Frames sent one after another to one connection reach it all, in order, and nobody else; none when its send raises |
| Connections.FirstBrokenAt | app/services/socket_service_impl.py:48-49 | The broadcast stops at position k exactly when every earlier connection takes its send and k is broken or the end |
| Connections.RemoveFirst | app/services/socket_service_impl.py:40 | `list.remove(x)` leaves one element fewer: the multiset minus one x |
| Connections.RemoveFirstAt | app/services/socket_service_impl.py:40 | The first occurrence is the one removed; the order of the rest is kept |
| Connections.ConnectedInvariant | app/services/socket_service_impl.py:27-34 | Connecting keeps every listed canvas non-empty and leaves other canvases alone |
| Connections.DisconnectedInvariant | app/services/socket_service_impl.py:36-43 | Disconnecting keeps every listed canvas non-empty (emptied lists are dropped) and leaves other canvases alone |
| Connections.DisconnectRemovesOne | app/services/socket_service_impl.py:36-43 | Disconnect raises exactly when the canvas is known and the connection is not in its list; otherwise exactly one registration is removed |
| Connections.ConnectThenDisconnect | app/services/socket_service_impl.py:27-43 | Connecting a new connection and disconnecting it restores the registry exactly |
| Connections.DisconnectTwiceRaises | app/services/socket_service_impl.py:40 | Disconnect is not idempotent: a second disconnect of a once-registered connection on a canvas that keeps others raises |
| Connections.ConnectionManager.constructor | app/services/socket_service_impl.py:23-25 | The registry starts empty |
| Connections.ConnectionManager.Connect | app/services/socket_service_impl.py:27-34 | Appends the connection at the end of the canvas's list, creating it when absent; duplicates kept; no empty list ever |
| Connections.ConnectionManager.Disconnect | app/services/socket_service_impl.py:36-43 | No-op for an unknown canvas; else removes the first occurrence and drops an emptied list, or raises changing nothing |
| Connections.ConnectionManager.BroadcastToCanvas | app/services/socket_service_impl.py:45-49 | Sends to the canvas's connections in registration order up to the first whose send raises, whose exception propagates; nothing for an unknown canvas |
| Connections.ConnectionManager.ForwardImage | app/services/socket_service_impl.py:51-58 | Broadcasts exactly the image frame `{"type":"image","image_data":d}` to the canvas; nothing for an unknown canvas |
| AnalysisParser.Segment | app/services/socket_service_impl.py:160-166 | `line.split(':')[1]` is the text between the first and second colon and holds no colon |
| AnalysisParser.LastMarked | app/services/socket_service_impl.py:158-166 | The position of the last line whose marker (by if/elif precedence) is the given one, or -1 |
| AnalysisParser.ParseAnalysis | app/services/socket_service_impl.py:152-166 | The for-loop reassigning four variables yields the declarative parse of the answer (see ParsedLastWins) |
| AnalysisParser.ParseLinesLastWins | app/services/socket_service_impl.py:158-166 | The loop raises IndexError exactly when a marked line lacks a colon; otherwise each field is the value of the last line of its kind, and unmarked lines change nothing |
| AnalysisParser.ParsedLastWins | app/services/socket_service.py:191-206 | The same for a whole answer split at newlines |
| AnalysisParser.AnalysisLastWins | app/services/socket_service_impl.py:158-166 | One more line is one more pass of the loop body: its marker's field takes its value, the others keep theirs |
| AnalysisParser.ColorsTakePrecedence | app/services/socket_service_impl.py:159-162 | A line naming both 색상 and 감정 sets only the colours |
| AnalysisParser.ColorsHaveNoComma | app/services/socket_service_impl.py:160 | No colour holds a comma |
| AnalysisParser.EmptyColorSegment | app/services/socket_service_impl.py:160 | `"색상:"` yields one empty colour, not none |
| DrawingService.AgeTextCases | app/services/drawing_service/drawing_service_impl.py:82 | The age text is "어린" exactly when age is None or 0; otherwise it is f"{age}살" |
| DrawingService.AgeTextInjective | app/services/drawing_service/drawing_service_impl.py:82 | Different non-zero ages give different age texts |
| DrawingService.GreetingMentions | app/services/drawing_service/drawing_service_impl.py:83-86 | The greeting contains the age text and the child's name |
| DrawingService.GreetingForFive | app/services/drawing_service/drawing_service_impl.py:82-86 | A five-year-old's greeting contains "5살" |
| DrawingService.NewDrawingResult | app/services/drawing_service/drawing_service_impl.py:101-106 | The result is "success" exactly when synthesis succeeds and starts with "error" exactly when it fails |
| DrawingService.VoiceTurnShape | app/services/drawing_service/drawing_service_impl.py:140-196 | A successful turn appends exactly ("user", transcript), ("ai", reply); a failed one keeps the turns already appended and adds the apology exactly once (3 turns when only the reply's synthesis fails) |
| DrawingService.VoiceTurnResultCases | app/services/drawing_service/drawing_service_impl.py:117-200 | A turn raises exactly when it does not succeed and the apology's synthesis fails; any other failure returns the apology |
| DrawingService.DrawingServiceImpl.constructor | app/services/drawing_service/drawing_service_impl.py:31-39 | The store starts empty |
| DrawingService.DrawingServiceImpl.HandleNewDrawing | app/services/drawing_service/drawing_service_impl.py:64-106 | Stores a fresh session under the canvas id, replacing any earlier one and nothing else; prompt and sole "ai" turn are the greeting; audio is the synthesis, or None with an "error: " result when it fails |
| DrawingService.DrawingServiceImpl.ProcessAudio | app/services/drawing_service/drawing_service_impl.py:112-200 | Only the addressed session's history changes, by the turn's entries; the result is the reply, the apology, or the apology synthesis's exception; an unknown canvas changes no history |
| ReceiveLoop.RunVoice | app/services/socket_service.py:62-120 | A loop handles at most all its messages, and all of them when it is still open |
| ReceiveLoop.RunVoiceStops | app/services/socket_service.py:62-120 | Once the loop has ended, later messages change nothing |
| ReceiveLoop.RunVoiceEndsAtFirstClose | app/services/socket_service.py:62-120 | A loop that ended did so at its last handled message, and every message before it kept it open |
| ReceiveLoop.RunVoiceAllOpen | app/services/socket_service.py:62-120 | A loop still open kept itself open at every message |
| ReceiveLoop.RunDrawing | app/services/socket_service.py:146-235 | A loop handles at most all its messages, and all of them when it goes on |
| ReceiveLoop.RunDrawingStops | app/services/socket_service.py:146-235 | Once the loop has ended, later messages change nothing |
| ReceiveLoop.RunDrawingStoredCount | app/services/socket_service.py:217-222 | A loop stores at most one analysis per handled message |
| SocketService.HandleVoiceMessage | app/services/socket_service.py:68-112 | The voice branch appends the turn's entries and the second transcript to an existing session only, then sends the speaker the transcript and the reply; it raises a call's or the send's exception |
| SocketService.VoiceMessageAllSucceed | app/services/socket_service.py:73-109 | With every call succeeding, history gains ("user",t1), ("ai",reply), ("user",t2); the speaker gets t2 and then the reply with its audio |
| SocketService.VoiceMessageUnknownCanvas | app/services/socket_service.py:73-109 | Without a session the speaker gets the transcript and the apology with its audio |
| SocketService.VoiceFramesToSpeakerOnly | app/services/socket_service.py:95-109 | A voice message's frames reach only the speaker, the transcript before the reply |
| SocketService.VoiceChannelStep | app/services/socket_service.py:65-112 | One message's effect: a voice message as above, other types ignored, unreadable messages and disconnects end the loop |
| SocketService.VoiceIteration | app/services/socket_service.py:63-112 | One pass extends the state left by the first i messages with the effect of message i |
| SocketService.VoiceLoop | app/services/socket_service.py:62-120 | The loop's sends, session turns and stop point are those of the fold of the per-message steps |
| SocketService.ServeVoiceChannel | app/services/socket_service.py:56-120 | Registers the connection, handles the messages, and unregisters it when the loop ends (the registry is restored or disconnect's exception escapes) |
| SocketService.Handshake | app/services/socket_service.py:134-143 | The first message must be an object yielding a request; it is acknowledged; otherwise the handler ends (client gone or close) |
| SocketService.DrawingChannelStep | app/services/socket_service.py:147-235 | One message's effect on the drawing channel: echo, silent analysis and store, or the invalid-JSON notice |
| SocketService.DrawingIteration | app/services/socket_service.py:146-235 | One pass extends the state left by the first i messages with the effect of message i |
| SocketService.DrawingLoop | app/services/socket_service.py:146-235 | The loop's sends, stored analyses and exit are those of the fold of the per-message steps |
| SocketService.ServeDrawingChannel | app/services/socket_service.py:124-241 | A failed handshake stores nothing; otherwise the sender gets the acknowledgement and then the loop's frames, and the canvas's session the loop's analyses; every other canvas's session keeps its state |
| SocketService.EchoWithoutImageUrl | app/services/socket_service.py:151-161 | A message without an image url is echoed back as "Message received" and changes nothing |
| SocketService.AnalysisFailureSwallowed | app/services/socket_service.py:224-226 | A failed analysis sends nothing, stores nothing and keeps the loop open |
| SocketService.AnalysisStoredSilently | app/services/socket_service.py:217-222 | A successful analysis is stored with its image url and nothing is sent |
| SocketService.InvalidJsonAnswered | app/services/socket_service.py:228-235 | A message that is not JSON is answered with "Invalid JSON format" and the loop goes on |
| SocketServiceImpl.ImageBranchTry | app/services/socket_service_impl.py:130-203 | Analyse and parse; with a session, request feedback, record it as "assistant", synthesize and broadcast it; returns the exception that stopped it |
| SocketServiceImpl.HandleImageMessage | app/services/socket_service_impl.py:129-211 | The image branch: the broadcast, then any exception on the way answered with an error notice to the sender; only that notice's send escapes |
| SocketServiceImpl.ImageFeedbackBroadcast | app/services/socket_service_impl.py:168-203 | With a session and every call succeeding, one "assistant" turn is recorded and the feedback reaches every connection of the canvas in order |
| SocketServiceImpl.EmptyImageIgnored | app/services/socket_service_impl.py:132-134 | An image message with missing or empty image data does nothing |
| SocketServiceImpl.ImageWithoutSessionSilent | app/services/socket_service_impl.py:168-169 | Without a session a successful analysis leads to no turn and no frame |
| SocketServiceImpl.ImageErrorToSenderOnly | app/services/socket_service_impl.py:205-211 | A failure before the broadcast reaches only the sender, as an error notice with the exception's message |
| SocketServiceImpl.VoiceChannelStep | app/services/socket_service_impl.py:74-211 | One message's effect: a voice message as in the other variant, an image message through the image branch, other types ignored |
| SocketServiceImpl.VoiceIteration | app/services/socket_service_impl.py:74-211 | One pass extends the state left by the first i messages with the effect of message i |
| SocketServiceImpl.VoiceLoop | app/services/socket_service_impl.py:73-220 | The loop's sends, session turns and stop point are those of the fold of the per-message steps |
| SocketServiceImpl.ServeVoiceChannel | app/services/socket_service_impl.py:65-220 | Registers the connection (so image feedback reaches it too), handles the messages, and unregisters it when the loop ends |
| SocketServiceImpl.ForwardBranch | app/services/socket_service_impl.py:254-263 | A truthy image is forwarded to the canvas and then acknowledged; a failing forward closes the socket |
| SocketServiceImpl.AnalysisBranch | app/services/socket_service_impl.py:265-348 | Analyse and parse, store image url and analysis in an existing session, reply with the analysis; any failure on the way answered with an error notice |
| SocketServiceImpl.DrawingChannelStep | app/services/socket_service_impl.py:248-357 | One message's effect on the drawing channel: forward, analysis, or the invalid-JSON notice |
| SocketServiceImpl.DrawingIteration | app/services/socket_service_impl.py:247-357 | One pass extends the state left by the first i messages with the effect of message i |
| SocketServiceImpl.DrawingLoop | app/services/socket_service_impl.py:247-357 | The loop's sends, stored analyses and exit are those of the fold of the per-message steps |
| SocketServiceImpl.ServeDrawingChannel | app/services/socket_service_impl.py:225-363 | A failed handshake stores nothing; otherwise the acknowledgement, then the loop's frames and analyses for the requested canvas; every other canvas's session keeps its state |
| SocketServiceImpl.ImageForwardedToCanvas | app/services/socket_service_impl.py:254-263 | A truthy image reaches every connection of the canvas in order, is acknowledged, and nothing is analysed or stored |
| SocketServiceImpl.AnalysedUrlCarriesNoImage | app/services/socket_service_impl.py:322-326 | The analysis branch only runs without image data, so the url stored beside an analysis is the bare data-url prefix or ends in "None" |
| SocketServiceImpl.AnalysisAnswered | app/services/socket_service_impl.py:313-338 | A successful analysis is stored and sent back to the sender as parsed |
| SocketServiceImpl.AnalysisErrorAnswered | app/services/socket_service_impl.py:341-348 | A marked line without a colon is answered with an error notice carrying the IndexError's message, and nothing is stored |
| DrawingController.RedirectUrlAge | app/controllers/drawing_controller.py:36-38 | The url ends with "&age=A" when the age is truthy and is the age-less url otherwise |
| DrawingController.RedirectUrlDistinguishesAges | app/controllers/drawing_controller.py:36-38 | Sessions that differ only in truthy ages get different urls |
| DrawingController.SynthesisFailureDetail | app/controllers/drawing_controller.py:25-28 | A failed greeting synthesis becomes a 500 caused by a 400 carrying the synthesis's own message |
| DrawingController.CreateNewDrawing | app/controllers/drawing_controller.py:16-52 | On success the body is the redirect url, the greeting's audio and the greeting's text; otherwise a 500 caused by the 400; the store gains exactly one fresh session under the canvas id, holding the request's fields, the greeting as prompt and only chat turn, the audio when synthesis succeeded and no analyses |
| DrawingController.ConversationHistoryRoundTrip | app/controllers/drawing_controller.py:79 | The flattened history has one "role: text" line per turn, in order, and each turn reads back from its line |
| DrawingController.FailuresBecome500 | app/controllers/drawing_controller.py:25-52 | In both handlers an error result and a missing session end as a 500; no 400 or 404 reaches the client |

## Left out

- AI calls (transcription, chat completion, speech synthesis, vision): they are network calls, so each is an `Outcome` argument. Prompts, model names and `max_tokens` are not modelled.
- Temporary files: `tempfile` and `os.unlink` are file I/O. `process_audio` writes the audio twice and deletes only the second file; that is not modelled.
- JSON and base64 encoding and decoding are library calls. A frame records the values that get encoded. A decoded message is a `VoiceInbound` or `DrawingInbound` value. Only string-valued keys of a JSON object are represented.
- `ChatMessage.timestamp` comes from a clock, so it is left out.
- WebSocket `accept`, `receive` and `close`, FastAPI routing and `HTTPException` rendering are framework plumbing. The exception text inside a 500 detail is kept structured (`Raised`) rather than rendered as `str(e)`.
- Async interleaving: each handler step is atomic. The registry is taken as fixed while a loop runs, so the broadcast list seen by a voice or drawing loop is the one at its start.
- Receive loops get a finite sequence of messages. A loop still open after the last one is reported as open: the server would wait for more.
- `DrawingSocketRequest` is not defined in the sources. Building it is an argument, `request: Outcome<string>`, which gives the canvas id or the exception.
- `DrawingAnalysis`, `update_image` and `add_analysis` are not defined in the sources. They are modelled as a four-field record and as setters of two extra session fields (`imageUrl`, `analyses`).
- `handle_done_drawing` and the rest of the completion flow are not defined in the sources. `DrawingController.DoneReply` takes the completion's result and the completed session's fields as arguments.
- The API-key check in `DrawingServiceImpl.__init__` and logging or `print` output are configuration and side output.
- Empty-field validation: `handle_new_drawing` has none, so none is modelled.
- SocketServiceImpl.ImageBranchTry: the analysis parsed in the image branch only feeds the feedback prompt. The model keeps whether parsing raises, not the prompt text.
- Connections.Wire, Connections.SentTo, Connections.SentToOutbox: which connections' sends raise is fixed for a whole exchange, so a connection that fails between two sends of one step (app/services/socket_service.py:100 then :109, app/services/socket_service_impl.py:115 then :124) is not modelled; a client leaving shows up only as the next closed message, and SocketService.HandleVoiceMessage and SocketService.VoiceFramesToSpeakerOnly therefore deliver both frames or neither.
- Where the code differs from the intended behaviour, the model follows the code:
  - the greeting and the voice replies are recorded with role "ai", and only image feedback uses "assistant";
  - an age of 0 reads as absent;
  - a failed transcription also yields the apology;
  - `process_audio` on an unknown canvas returns the apology instead of failing;
  - the voice handler records a second "user" turn, so a successful voice message adds three turns, not two;
  - a parser value is the text between the first and second colon, not everything after the first;
  - disconnect raises for a connection missing from a known canvas instead of being idempotent;
  - an exception in the voice loop ends the loop instead of being converted to an error reply.
