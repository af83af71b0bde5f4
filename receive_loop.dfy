/** The receive loops of the WebSocket handlers. Each handler repeats one step per received
    message until a step ends the loop; what a run of messages does is the concatenation of
    the steps' effects up to and including the step that ends it. */
module ReceiveLoop {
  import opened Common
  import opened Messages
  import opened DrawingModel

  /** What one iteration of a voice-channel loop does: the turns it appends to the canvas's
      session (when it exists), what it sends, and whether the loop goes on. */
  datatype VoiceEffect = VoiceEffect(entries: seq<ChatMessage>, sent: seq<Delivery>, open: bool)

  /** What a run of voice-channel iterations does, and how many messages it handled. */
  datatype VoiceRun = VoiceRun(entries: seq<ChatMessage>, sent: seq<Delivery>, handled: nat, open: bool)

  /** The iterations in order, up to and including the first that ends the loop. */
  function RunVoice(effects: seq<VoiceEffect>): (run: VoiceRun)
    ensures run.handled <= |effects|
    ensures run.open ==> run.handled == |effects|
  {
    if |effects| == 0 then VoiceRun([], [], 0, true)
    else
      var before := RunVoice(effects[..|effects| - 1]);
      if !before.open then before
      else
        var e := effects[|effects| - 1];
        VoiceRun(before.entries + e.entries, before.sent + e.sent, before.handled + 1, e.open)
  }

  /** Once the loop has ended, later messages change nothing. */
  lemma {:induction false} RunVoiceStops(effects: seq<VoiceEffect>, more: seq<VoiceEffect>)
    requires !RunVoice(effects).open
    ensures RunVoice(effects + more) == RunVoice(effects)
  {
    if |more| > 0 {
      var all := effects + more;
      RunVoiceStops(effects, more[..|more| - 1]);
      assert all[..|all| - 1] == effects + more[..|more| - 1];
    } else {
      assert effects + more == effects;
    }
  }

  /** One more iteration of a loop that is still open adds its effect. */
  lemma RunVoiceNext(effects: seq<VoiceEffect>, i: nat)
    requires i < |effects| && RunVoice(effects[..i]).open
    ensures var before := RunVoice(effects[..i]);
            var e := effects[i];
            RunVoice(effects[..i + 1]) == VoiceRun(before.entries + e.entries, before.sent + e.sent, i + 1, e.open)
  {
    assert effects[..i + 1][..i] == effects[..i];
  }

  /** A loop over a prefix that has ended, or that covers every message, is the whole run. */
  lemma {:induction false} RunVoicePrefix(effects: seq<VoiceEffect>, n: nat)
    requires n <= |effects| && (RunVoice(effects[..n]).open ==> n == |effects|)
    ensures RunVoice(effects) == RunVoice(effects[..n])
  {
    if n < |effects| {
      RunVoiceStops(effects[..n], effects[n..]);
      assert effects[..n] + effects[n..] == effects;
    } else {
      assert effects[..n] == effects;
    }
  }

  /** A session after a run of voice iterations: the turns appended to its history, every
      other field as it was. */
  function AppendTurns(state: SessionState, entries: seq<ChatMessage>): SessionState
  {
    state.(chatHistory := state.chatHistory + entries)
  }

  /** Appending turns in two batches is appending them all at once. */
  lemma AppendTurnsConcat(state: SessionState, a: seq<ChatMessage>, b: seq<ChatMessage>)
    ensures AppendTurns(AppendTurns(state, a), b) == AppendTurns(state, a + b)
  {
    assert state.chatHistory + a + b == state.chatHistory + (a + b);
  }

  /** The loop ends exactly at the first iteration that does not keep it open: every
      iteration before it kept the loop open. */
  lemma {:induction false} RunVoiceEndsAtFirstClose(effects: seq<VoiceEffect>)
    requires !RunVoice(effects).open
    ensures var n := RunVoice(effects).handled;
            && 1 <= n <= |effects| && !effects[n - 1].open
            && forall j :: 0 <= j < n - 1 ==> effects[j].open
  {
    var front := effects[..|effects| - 1];
    if !RunVoice(front).open {
      RunVoiceEndsAtFirstClose(front);
    } else {
      assert forall j :: 0 <= j < |front| ==> front[j].open by {
        RunVoiceAllOpen(front);
      }
    }
  }

  /** A run that is still open kept the loop open at every iteration. */
  lemma {:induction false} RunVoiceAllOpen(effects: seq<VoiceEffect>)
    requires RunVoice(effects).open
    ensures forall j :: 0 <= j < |effects| ==> effects[j].open
  {
    if |effects| > 0 {
      var front := effects[..|effects| - 1];
      RunVoiceAllOpen(front);
      assert forall j :: 0 <= j < |front| ==> front[j] == effects[j];
    }
  }

  /** An analysis stored in a session, with the image url stored beside it. */
  datatype Stored = Stored(imageUrl: string, analysis: DrawingAnalysis)

  /** What one iteration of a drawing-channel loop does: every delivery, the analysis it
      stores in the session (when the session exists), and how it ends. */
  datatype DrawingEffect = DrawingEffect(sent: seq<Delivery>, stored: Option<Stored>, exit: Exit)

  /** Sending one reply to the sender and going on, or closing when its send raises. */
  function ReplyTo(ws: Conn, frame: Frame, broken: map<Conn, string>): DrawingEffect
  {
    if ws in broken then DrawingEffect([], None, ServerClose) else DrawingEffect([Delivery(ws, frame)], None, KeepOpen)
  }

  /** What a run of drawing-channel iterations does, and how many messages it handled. */
  datatype DrawingRun = DrawingRun(sent: seq<Delivery>, stored: seq<Stored>, handled: nat, exit: Exit)

  /** The iterations in order, up to and including the first that ends the loop. */
  function RunDrawing(effects: seq<DrawingEffect>): (run: DrawingRun)
    ensures run.handled <= |effects|
    ensures run.exit == KeepOpen ==> run.handled == |effects|
  {
    if |effects| == 0 then DrawingRun([], [], 0, KeepOpen)
    else
      var before := RunDrawing(effects[..|effects| - 1]);
      if before.exit != KeepOpen then before
      else
        var e := effects[|effects| - 1];
        DrawingRun(before.sent + e.sent, before.stored + StoredBy(e),
                   before.handled + 1, e.exit)
  }

  /** Once the loop has ended, later messages change nothing. */
  lemma {:induction false} RunDrawingStops(effects: seq<DrawingEffect>, more: seq<DrawingEffect>)
    requires RunDrawing(effects).exit != KeepOpen
    ensures RunDrawing(effects + more) == RunDrawing(effects)
  {
    if |more| > 0 {
      var all := effects + more;
      RunDrawingStops(effects, more[..|more| - 1]);
      assert all[..|all| - 1] == effects + more[..|more| - 1];
    } else {
      assert effects + more == effects;
    }
  }

  /** One more iteration of a loop that is still open adds its effect. */
  lemma RunDrawingNext(effects: seq<DrawingEffect>, i: nat)
    requires i < |effects| && RunDrawing(effects[..i]).exit == KeepOpen
    ensures var before := RunDrawing(effects[..i]);
            var e := effects[i];
            RunDrawing(effects[..i + 1]) == DrawingRun(before.sent + e.sent, before.stored + StoredBy(e), i + 1, e.exit)
  {
    assert effects[..i + 1][..i] == effects[..i];
  }

  /** A loop over a prefix that has ended, or that covers every message, is the whole run. */
  lemma {:induction false} RunDrawingPrefix(effects: seq<DrawingEffect>, n: nat)
    requires n <= |effects| && (RunDrawing(effects[..n]).exit == KeepOpen ==> n == |effects|)
    ensures RunDrawing(effects) == RunDrawing(effects[..n])
  {
    if n < |effects| {
      RunDrawingStops(effects[..n], effects[n..]);
      assert effects[..n] + effects[n..] == effects;
    } else {
      assert effects[..n] == effects;
    }
  }

  /** The analyses of stored entries, in order. */
  function Analyses(stored: seq<Stored>): seq<DrawingAnalysis>
  {
    seq(|stored|, i requires 0 <= i < |stored| => stored[i].analysis)
  }

  lemma AnalysesConcat(a: seq<Stored>, b: seq<Stored>)
    ensures Analyses(a + b) == Analyses(a) + Analyses(b)
  {
  }

  /** The image url a session holds after the run: the last one stored, if any. */
  function LastImageUrl(stored: seq<Stored>, before: Option<string>): Option<string>
  {
    if stored == [] then before else Some(stored[|stored| - 1].imageUrl)
  }

  /** The stored entries of one iteration: none or one. */
  function StoredBy(e: DrawingEffect): seq<Stored>
  {
    if e.stored.Some? then [e.stored.value] else []
  }

  /** A session after storing entries: each analysis appended in order, and the image url of
      the last entry in place of the one it held. */
  function StoreAll(state: SessionState, stored: seq<Stored>): SessionState
  {
    state.(imageUrl := LastImageUrl(stored, state.imageUrl), analyses := state.analyses + Analyses(stored))
  }

  /** Storing in two batches is storing everything at once. */
  lemma StoreAllConcat(state: SessionState, a: seq<Stored>, b: seq<Stored>)
    ensures StoreAll(StoreAll(state, a), b) == StoreAll(state, a + b)
  {
    AnalysesConcat(a, b);
    if b != [] {
      assert (a + b)[|a + b| - 1] == b[|b| - 1];
    } else {
      assert a + b == a;
    }
  }

  /** A run stores at most one analysis per message it handled. */
  lemma {:induction false} RunDrawingStoredCount(effects: seq<DrawingEffect>)
    ensures |RunDrawing(effects).stored| <= RunDrawing(effects).handled
  {
    if |effects| > 0 {
      RunDrawingStoredCount(effects[..|effects| - 1]);
    }
  }
}
