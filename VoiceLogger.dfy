/**
 * The live voice session of components/VoiceLogger.tsx (`useGeminiLive`).
 *
 * Every inbound server message is handled by `LiveSession.OnMessage`, whose
 * effect is the pure function `ApplyMessage` on a `LiveState` snapshot of
 * the session. A message's fields are handled in the order the source does:
 * audio, input transcription, output transcription, turnComplete, toolCall,
 * interrupted. Audio chunks are abstract durations on an integer clock; the
 * callbacks into the host (`onLogCreated`, `saveReminder`,
 * `onRefreshReminders`) and the tool responses sent back over the session
 * are recorded, in order, in the state.
 */
module VoiceLogger {
  import opened Types

  /** A tool-call argument as the transport delivers it. */
  datatype ArgValue = Str(s: string) | Int(n: int)

  datatype FunctionCall = FunctionCall(id: string, name: string, args: map<string, ArgValue>)

  /**
   * The fields of a `LiveServerMessage` the handler reads. `audio` is the
   * decoded duration of the first inline audio part, present when that part
   * carries data.
   */
  datatype ServerMessage = ServerMessage(
    audio: Option<nat>,
    inputTranscription: Option<string>,
    outputTranscription: Option<string>,
    turnComplete: bool,
    toolCall: Option<seq<FunctionCall>>,
    interrupted: bool)

  datatype ToolResponse = ToolResponse(id: string, name: string, result: string)

  /** One `source.start(at)` of the playback scheduler. */
  datatype ScheduledChunk = ScheduledChunk(source: nat, start: int, duration: nat)

  /** What the text-to-speech request comes back with. */
  datatype SpeechOutcome = SpeechAudio | NoAudioPayload | SpeechFailed

  const LOG_DATA := "logData"
  const SET_REMINDER := "setReminder"

  /**
   * The session's connection and UI flags. `capturedMuted` is the `isMuted`
   * value the message callback closed over when the session was started.
   */
  datatype Connection = Connection(
    active: bool,
    muted: bool,
    capturedMuted: bool,
    error: Option<string>,
    hasSession: bool,
    hasInputContext: bool,
    hasOutputContext: bool,
    hasProcessor: bool,
    audioLevel: int)

  /** The two transcription accumulators, their on-screen copies and `isAiThinking`. */
  datatype Buffers = Buffers(
    inputText: string,
    outputText: string,
    partialInput: string,
    partialOutput: string,
    thinking: bool)

  /**
   * `nextStartTimeRef` (the cursor), `sourcesRef` (the playing set), a
   * counter for fresh source ids, every chunk ever scheduled and every
   * source stopped.
   */
  datatype Playback = Playback(
    cursor: int,
    sources: set<nat>,
    nextSourceId: nat,
    scheduled: seq<ScheduledChunk>,
    stopped: set<nat>)

  /** What reached the outside: tool responses, `onLogCreated` payloads, saved reminders, refreshes. */
  datatype Effects = Effects(
    outbox: seq<ToolResponse>,
    createdLogs: seq<map<string, ArgValue>>,
    savedReminders: seq<ReminderDraft>,
    refreshes: nat)

  /** `isSpeaking` and `ttsSourceRef`. */
  datatype Speech = Speech(speaking: Option<int>, ttsSource: Option<nat>)

  datatype LiveState = LiveState(
    conn: Connection,
    buffers: Buffers,
    transcript: seq<TranscriptionItem>,
    playback: Playback,
    effects: Effects,
    speech: Speech)

  // ---------------------------------------------------------------------
  // Playback scheduling

  /**
   * Every source id handed out is below `nextSourceId`, and every chunk whose
   * source is still in the playing set ends no later than the cursor.
   */
  predicate PlaybackValid(p: Playback)
  {
    (forall id :: id in p.sources ==> id < p.nextSourceId) &&
    (forall k :: 0 <= k < |p.scheduled| ==> p.scheduled[k].source < p.nextSourceId) &&
    (forall k :: 0 <= k < |p.scheduled| && p.scheduled[k].source in p.sources ==>
       p.scheduled[k].start + p.scheduled[k].duration <= p.cursor)
  }

  function Max(a: int, b: int): int { if a >= b then a else b }

  /** Schedule one decoded chunk at `max(cursor, clock)` and advance the cursor past it. */
  function ScheduleChunk(p: Playback, duration: nat, clock: int): Playback
  {
    var start := Max(p.cursor, clock);
    p.(cursor := start + duration,
       sources := p.sources + {p.nextSourceId},
       nextSourceId := p.nextSourceId + 1,
       scheduled := p.scheduled + [ScheduledChunk(p.nextSourceId, start, duration)])
  }

  predicate PlaysAudio(c: Connection, msg: ServerMessage)
  {
    msg.audio.Some? && c.hasOutputContext && !c.capturedMuted
  }

  function AfterAudio(s: LiveState, msg: ServerMessage, clock: int): LiveState
  {
    if PlaysAudio(s.conn, msg) then s.(playback := ScheduleChunk(s.playback, msg.audio.value, clock)) else s
  }

  /**
   * A scheduled chunk starts at max(cursor, clock), never before the end of
   * a chunk that is still playing, gets a fresh source id, and the cursor
   * moves to its end.
   */
  lemma ScheduleChunkSpec(p: Playback, duration: nat, clock: int)
    requires PlaybackValid(p)
    ensures var q := ScheduleChunk(p, duration, clock);
      var c := q.scheduled[|q.scheduled| - 1];
      PlaybackValid(q) &&
      |q.scheduled| == |p.scheduled| + 1 && q.scheduled[..|p.scheduled|] == p.scheduled &&
      c.start == Max(p.cursor, clock) && c.start >= clock && c.start >= p.cursor &&
      q.cursor == c.start + duration &&
      c.source !in p.sources && q.sources == p.sources + {c.source} &&
      (forall k :: 0 <= k < |p.scheduled| && p.scheduled[k].source in p.sources ==>
         p.scheduled[k].start + p.scheduled[k].duration <= c.start)
  {
    var q := ScheduleChunk(p, duration, clock);
    assert forall k :: 0 <= k < |p.scheduled| ==> q.scheduled[k] == p.scheduled[k];
    assert forall k :: 0 <= k < |p.scheduled| ==> p.scheduled[k].source != p.nextSourceId;
  }

  /**
   * Gap-free playback: when the second chunk arrives before the first has
   * finished (its clock is not past the cursor), it starts exactly where
   * the first one ends.
   */
  lemma BackToBack(p: Playback, d1: nat, c1: int, d2: nat, c2: int)
    requires c2 <= ScheduleChunk(p, d1, c1).cursor
    ensures var q1 := ScheduleChunk(p, d1, c1);
      var q2 := ScheduleChunk(q1, d2, c2);
      q2.scheduled[|q2.scheduled| - 1].start == q1.scheduled[|q1.scheduled| - 1].start + d1
  {
  }

  // ---------------------------------------------------------------------
  // Transcription and turn completion

  function AfterTranscripts(b: Buffers, msg: ServerMessage): Buffers
  {
    var b1 := if msg.inputTranscription.Some?
      then var text := b.inputText + msg.inputTranscription.value;
           b.(inputText := text, partialInput := text)
      else b;
    if msg.outputTranscription.Some?
      then var text := b1.outputText + msg.outputTranscription.value;
           b1.(outputText := text, partialOutput := text, thinking := true)
      else b1
  }

  function TurnEntries(input: string, output: string, now: int): seq<TranscriptionItem>
  {
    (if Truthy(input) then [TranscriptionItem(UserSender, input, now)] else [])
      + (if Truthy(output) then [TranscriptionItem(AiSender, output, now)] else [])
  }

  function AfterTurn(s: LiveState, msg: ServerMessage, now: int): LiveState
  {
    if msg.turnComplete then
      s.(transcript := s.transcript + TurnEntries(s.buffers.inputText, s.buffers.outputText, now),
         buffers := Buffers("", "", "", "", false))
    else s
  }

  /**
   * turnComplete appends a user entry exactly when the input accumulator is
   * non-empty, then an AI entry exactly when the output accumulator is, and
   * empties both accumulators and the thinking flag. Each entry carries the
   * text its accumulator held at turnComplete (`TurnEntriesAsWritten` is
   * what the queued updaters record instead).
   */
  lemma TurnCompleteSpec(s: LiveState, msg: ServerMessage, now: int)
    requires msg.turnComplete
    ensures var t := AfterTurn(s, msg, now);
      var added := t.transcript[|s.transcript|..];
      var input := s.buffers.inputText;
      var output := s.buffers.outputText;
      t.transcript[..|s.transcript|] == s.transcript &&
      |added| == (if input != "" then 1 else 0) + (if output != "" then 1 else 0) &&
      (input != "" ==> added[0] == TranscriptionItem(UserSender, input, now)) &&
      (output != "" ==> added[|added| - 1] == TranscriptionItem(AiSender, output, now)) &&
      t.buffers == Buffers("", "", "", "", false)
  {
    var t := AfterTurn(s, msg, now);
    assert t.transcript[|s.transcript|..] == TurnEntries(s.buffers.inputText, s.buffers.outputText, now);
  }

  /**
   * The entries the turnComplete branch appends as written. Both are added
   * by updater functions that read the accumulators when React runs them,
   * and the accumulators are emptied straight after they are queued. React
   * runs an updater at once only when the component has no update pending
   * (`eagerFirst`), which can hold for the first call and never for the
   * second; a later updater sees the emptied accumulator. The clock is read
   * when the updater runs, too; `now` stands for every such reading.
   */
  function TurnEntriesAsWritten(input: string, output: string, now: int, eagerFirst: bool): seq<TranscriptionItem>
  {
    (if Truthy(input) then [TranscriptionItem(UserSender, if eagerFirst then input else "", now)] else [])
      + (if Truthy(output)
         then [TranscriptionItem(AiSender, if eagerFirst && !Truthy(input) then output else "", now)]
         else [])
  }

  /**
   * A turn with both user and AI text: as written the AI entry is recorded
   * with empty text however React schedules the updaters, while the
   * corrected turn (`AfterTurn`) records the AI text.
   */
  lemma TurnLosesAiText(input: string, output: string, now: int, eagerFirst: bool)
    requires input != "" && output != ""
    ensures var written := TurnEntriesAsWritten(input, output, now, eagerFirst);
      var intended := TurnEntries(input, output, now);
      |written| == 2 && |intended| == 2 &&
      written[1].text == "" && intended[1].text == output && written[1] != intended[1]
  {
  }

  // ---------------------------------------------------------------------
  // Tool calls

  function ArgString(v: ArgValue): string
  {
    match v
    case Str(s) => s
    case Int(n) => IntToString(n)
  }

  predicate ArgTruthy(v: ArgValue)
  {
    match v
    case Str(s) => s != ""
    case Int(n) => n != 0
  }

  /** `${fc.args.key}` in a template: a missing argument reads "undefined". */
  function ArgText(args: map<string, ArgValue>, key: string): string
  {
    if key in args then ArgString(args[key]) else "undefined"
  }

  /** `fc.args.key || ''`. */
  function ArgOrEmpty(args: map<string, ArgValue>, key: string): string
  {
    if key in args && ArgTruthy(args[key]) then ArgString(args[key]) else ""
  }

  predicate KnownTool(fc: FunctionCall) { fc.name == LOG_DATA || fc.name == SET_REMINDER }

  /**
   * Both handled tools call `toUpperCase` on the `type` argument; when it is
   * missing or not a string that throws, and the rest of the message handler
   * does not run.
   */
  predicate Throws(fc: FunctionCall)
  {
    KnownTool(fc) && !("type" in fc.args && fc.args["type"].Str?)
  }

  function UpperType(fc: FunctionCall): string
    requires KnownTool(fc) && !Throws(fc)
  {
    Upper(fc.args["type"].s)
  }

  /** `{ ...fc.args, type: logType, value: String(fc.args.value) }`. */
  function LogPayload(fc: FunctionCall): map<string, ArgValue>
    requires fc.name == LOG_DATA && !Throws(fc)
  {
    fc.args["type" := Str(UpperType(fc))]["value" := Str(ArgText(fc.args, "value"))]
  }

  function LoggedText(fc: FunctionCall): string
    requires fc.name == LOG_DATA && !Throws(fc)
  {
    "[SYSTEM] Logged: " + ArgText(fc.args, "value") + " " + ArgOrEmpty(fc.args, "unit")
      + " (" + Lower(UpperType(fc)) + ")."
  }

  function ReminderFor(fc: FunctionCall): ReminderDraft
    requires fc.name == SET_REMINDER && !Throws(fc)
  {
    ReminderDraft(ArgText(fc.args, "time"), ArgText(fc.args, "label"), UpperType(fc), false)
  }

  function ReminderText(fc: FunctionCall): string
  {
    var extraInfo := if "doctorName" in fc.args && ArgTruthy(fc.args["doctorName"])
      then " Prescribed by Dr. " + ArgString(fc.args["doctorName"]) + "."
      else "";
    "[SYSTEM] Reminder set for " + ArgText(fc.args, "time") + "." + extraInfo
  }

  /** One iteration of the `for (const fc of functionCalls)` loop. */
  function ToolStep(s: LiveState, fc: FunctionCall, now: int): LiveState
    requires !Throws(fc)
  {
    var e := s.effects;
    if fc.name == LOG_DATA then
      s.(effects := e.(createdLogs := e.createdLogs + [LogPayload(fc)],
                       outbox := e.outbox + [ToolResponse(fc.id, fc.name, "Success.")]),
         transcript := s.transcript + [TranscriptionItem(AiSender, LoggedText(fc), now)])
    else if fc.name == SET_REMINDER then
      s.(effects := e.(savedReminders := e.savedReminders + [ReminderFor(fc)],
                       refreshes := e.refreshes + 1,
                       outbox := e.outbox + [ToolResponse(fc.id, fc.name, "Reminder active.")]),
         transcript := s.transcript + [TranscriptionItem(AiSender, ReminderText(fc), now)])
    else s
  }

  predicate NoThrow(calls: seq<FunctionCall>) { forall j :: 0 <= j < |calls| ==> !Throws(calls[j]) }

  function FirstThrowFrom(calls: seq<FunctionCall>, i: nat): (r: nat)
    requires i <= |calls|
    ensures i <= r <= |calls|
    ensures forall j :: i <= j < r ==> !Throws(calls[j])
    ensures r < |calls| ==> Throws(calls[r])
    decreases |calls| - i
  {
    if i == |calls| || Throws(calls[i]) then i else FirstThrowFrom(calls, i + 1)
  }

  /** The number of calls handled before the first one that throws. */
  function FirstThrow(calls: seq<FunctionCall>): (r: nat)
    ensures r <= |calls|
    ensures forall j :: 0 <= j < r ==> !Throws(calls[j])
    ensures NoThrow(calls[..r])
    ensures r < |calls| ==> Throws(calls[r])
  {
    var r := FirstThrowFrom(calls, 0);
    assert forall j :: 0 <= j < r ==> calls[..r][j] == calls[j];
    r
  }

  function AfterTools(s: LiveState, calls: seq<FunctionCall>, now: int): LiveState
    requires NoThrow(calls)
  {
    if |calls| == 0 then s
    else ToolStep(AfterTools(s, calls[..|calls| - 1], now), calls[|calls| - 1], now)
  }

  /** The tool response one call queues. */
  function ResponseOf(fc: FunctionCall): seq<ToolResponse>
  {
    if fc.name == LOG_DATA then [ToolResponse(fc.id, fc.name, "Success.")]
    else if fc.name == SET_REMINDER then [ToolResponse(fc.id, fc.name, "Reminder active.")]
    else []
  }

  /** The `onLogCreated` payload one call emits. */
  function PayloadOf(fc: FunctionCall): seq<map<string, ArgValue>>
    requires !Throws(fc)
  {
    if fc.name == LOG_DATA then [LogPayload(fc)] else []
  }

  /** The reminder one call saves. */
  function ReminderOf(fc: FunctionCall): seq<ReminderDraft>
    requires !Throws(fc)
  {
    if fc.name == SET_REMINDER then [ReminderFor(fc)] else []
  }

  /** The transcript entry one call adds. */
  function EntryOf(fc: FunctionCall, now: int): seq<TranscriptionItem>
    requires !Throws(fc)
  {
    if fc.name == LOG_DATA then [TranscriptionItem(AiSender, LoggedText(fc), now)]
    else if fc.name == SET_REMINDER then [TranscriptionItem(AiSender, ReminderText(fc), now)]
    else []
  }

  /** The tool responses queued for a list of calls. */
  function ResponsesFor(calls: seq<FunctionCall>): seq<ToolResponse>
  {
    if |calls| == 0 then [] else ResponsesFor(calls[..|calls| - 1]) + ResponseOf(calls[|calls| - 1])
  }

  function PayloadsFor(calls: seq<FunctionCall>): seq<map<string, ArgValue>>
    requires NoThrow(calls)
  {
    if |calls| == 0 then [] else PayloadsFor(calls[..|calls| - 1]) + PayloadOf(calls[|calls| - 1])
  }

  function RemindersFor(calls: seq<FunctionCall>): seq<ReminderDraft>
    requires NoThrow(calls)
  {
    if |calls| == 0 then [] else RemindersFor(calls[..|calls| - 1]) + ReminderOf(calls[|calls| - 1])
  }

  function ToolEntriesFor(calls: seq<FunctionCall>, now: int): seq<TranscriptionItem>
    requires NoThrow(calls)
  {
    if |calls| == 0 then [] else ToolEntriesFor(calls[..|calls| - 1], now) + EntryOf(calls[|calls| - 1], now)
  }

  function CountNamed(calls: seq<FunctionCall>, name: string): nat
  {
    if |calls| == 0 then 0
    else CountNamed(calls[..|calls| - 1], name) + (if calls[|calls| - 1].name == name then 1 else 0)
  }

  /** Handling calls changes nothing but the effects and the transcript. */
  lemma {:induction false} AfterToolsFrame(s: LiveState, calls: seq<FunctionCall>, now: int)
    requires NoThrow(calls)
    ensures var t := AfterTools(s, calls, now);
      t.conn == s.conn && t.buffers == s.buffers && t.playback == s.playback && t.speech == s.speech
  {
    if |calls| > 0 {
      AfterToolsFrame(s, calls[..|calls| - 1], now);
    }
  }

  /** The tool responses of handled calls are queued in call order. */
  lemma {:induction false} AfterToolsOutbox(s: LiveState, calls: seq<FunctionCall>, now: int)
    requires NoThrow(calls)
    ensures AfterTools(s, calls, now).effects.outbox == s.effects.outbox + ResponsesFor(calls)
  {
    if |calls| > 0 {
      var init := calls[..|calls| - 1];
      AfterToolsOutbox(s, init, now);
      assert s.effects.outbox + ResponsesFor(calls) ==
        AfterTools(s, init, now).effects.outbox + ResponseOf(calls[|calls| - 1]);
    }
  }

  /** The `onLogCreated` payloads of handled calls are emitted in call order. */
  lemma {:induction false} AfterToolsLogs(s: LiveState, calls: seq<FunctionCall>, now: int)
    requires NoThrow(calls)
    ensures AfterTools(s, calls, now).effects.createdLogs == s.effects.createdLogs + PayloadsFor(calls)
  {
    if |calls| > 0 {
      var init := calls[..|calls| - 1];
      AfterToolsLogs(s, init, now);
      assert s.effects.createdLogs + PayloadsFor(calls) ==
        AfterTools(s, init, now).effects.createdLogs + PayloadOf(calls[|calls| - 1]);
    }
  }

  /** The reminders of handled calls are saved in call order, each followed by one refresh. */
  lemma {:induction false} AfterToolsReminders(s: LiveState, calls: seq<FunctionCall>, now: int)
    requires NoThrow(calls)
    ensures AfterTools(s, calls, now).effects.savedReminders == s.effects.savedReminders + RemindersFor(calls)
    ensures AfterTools(s, calls, now).effects.refreshes == s.effects.refreshes + |RemindersFor(calls)|
  {
    if |calls| > 0 {
      var init := calls[..|calls| - 1];
      AfterToolsReminders(s, init, now);
      assert s.effects.savedReminders + RemindersFor(calls) ==
        AfterTools(s, init, now).effects.savedReminders + ReminderOf(calls[|calls| - 1]);
    }
  }

  /** The transcript entries of handled calls are appended in call order. */
  lemma {:induction false} AfterToolsTranscript(s: LiveState, calls: seq<FunctionCall>, now: int)
    requires NoThrow(calls)
    ensures AfterTools(s, calls, now).transcript == s.transcript + ToolEntriesFor(calls, now)
  {
    if |calls| > 0 {
      var init := calls[..|calls| - 1];
      AfterToolsTranscript(s, init, now);
      assert s.transcript + ToolEntriesFor(calls, now) ==
        AfterTools(s, init, now).transcript + EntryOf(calls[|calls| - 1], now);
    }
  }

  /**
   * Handling a list of calls appends, in call order, exactly their payloads,
   * reminders, transcript entries and responses, and touches nothing else.
   */
  lemma AfterToolsEffects(s: LiveState, calls: seq<FunctionCall>, now: int)
    requires NoThrow(calls)
    ensures AfterTools(s, calls, now) ==
      s.(effects := Effects(s.effects.outbox + ResponsesFor(calls),
                            s.effects.createdLogs + PayloadsFor(calls),
                            s.effects.savedReminders + RemindersFor(calls),
                            s.effects.refreshes + |RemindersFor(calls)|),
         transcript := s.transcript + ToolEntriesFor(calls, now))
  {
    AfterToolsFrame(s, calls, now);
    AfterToolsOutbox(s, calls, now);
    AfterToolsLogs(s, calls, now);
    AfterToolsReminders(s, calls, now);
    AfterToolsTranscript(s, calls, now);
  }

  /**
   * One response per handled call: `logData` calls are acknowledged with
   * "Success.", `setReminder` calls with "Reminder active.", each carrying
   * the id and name of a call of the list; every handled call also adds one
   * transcript entry, every `logData` one payload, and every `setReminder`
   * one saved reminder.
   */
  lemma {:induction false} ToolCounts(calls: seq<FunctionCall>, now: int)
    requires NoThrow(calls)
    ensures |PayloadsFor(calls)| == CountNamed(calls, LOG_DATA)
    ensures |RemindersFor(calls)| == CountNamed(calls, SET_REMINDER)
    ensures |ResponsesFor(calls)| == |ToolEntriesFor(calls, now)|
    ensures |ResponsesFor(calls)| == CountNamed(calls, LOG_DATA) + CountNamed(calls, SET_REMINDER)
    ensures forall r :: r in ResponsesFor(calls) ==>
              exists j :: 0 <= j < |calls| && calls[j].id == r.id && calls[j].name == r.name &&
                (r.result == if r.name == LOG_DATA then "Success." else "Reminder active.")
  {
    if |calls| > 0 {
      var init := calls[..|calls| - 1];
      assert forall j :: 0 <= j < |init| ==> init[j] == calls[j];
      ToolCounts(init, now);
    }
  }

  /** Every `onLogCreated` payload has an upper-cased string type and a stringified value. */
  lemma {:induction false} PayloadShape(calls: seq<FunctionCall>)
    requires NoThrow(calls)
    ensures forall p: map<string, ArgValue> :: p in PayloadsFor(calls) ==>
              "type" in p && p["type"].Str? && IsUpper(p["type"].s) && "value" in p && p["value"].Str?
  {
    if |calls| > 0 {
      var init := calls[..|calls| - 1];
      assert forall j :: 0 <= j < |init| ==> init[j] == calls[j];
      PayloadShape(init);
      var fc := calls[|calls| - 1];
      if fc.name == LOG_DATA { UpperIsUpper(fc.args["type"].s); }
    }
  }

  /** Every saved reminder has an upper-cased type and `repeat: false`. */
  lemma {:induction false} ReminderShape(calls: seq<FunctionCall>)
    requires NoThrow(calls)
    ensures forall r :: r in RemindersFor(calls) ==> IsUpper(r.kind) && !r.repeat
  {
    if |calls| > 0 {
      var init := calls[..|calls| - 1];
      assert forall j :: 0 <= j < |init| ==> init[j] == calls[j];
      ReminderShape(init);
      var fc := calls[|calls| - 1];
      if fc.name == SET_REMINDER { UpperIsUpper(fc.args["type"].s); }
    }
  }

  /** A call with any other name than the two tools has no effect at all. */
  lemma UnknownToolIgnored(s: LiveState, calls: seq<FunctionCall>, fc: FunctionCall, now: int)
    requires NoThrow(calls) && !KnownTool(fc)
    ensures NoThrow(calls + [fc])
    ensures AfterTools(s, calls + [fc], now) == AfterTools(s, calls, now)
  {
    assert (calls + [fc])[..|calls|] == calls;
  }

  // ---------------------------------------------------------------------
  // Interruption and the whole message

  function AfterInterrupt(s: LiveState, msg: ServerMessage): LiveState
  {
    if msg.interrupted then
      s.(playback := s.playback.(stopped := s.playback.stopped + s.playback.sources, sources := {}, cursor := 0),
         buffers := s.buffers.(thinking := false, partialOutput := ""))
    else s
  }

  /** Whether the tool-call loop of this message hits a call that throws. */
  predicate Aborts(msg: ServerMessage)
  {
    msg.toolCall.Some? && FirstThrow(msg.toolCall.value) < |msg.toolCall.value|
  }

  function HandledCalls(msg: ServerMessage): (r: seq<FunctionCall>)
    ensures NoThrow(r)
  {
    if msg.toolCall.Some? then msg.toolCall.value[..FirstThrow(msg.toolCall.value)] else []
  }

  /** The state after audio, transcription and turn completion, before the tool calls. */
  function BeforeTools(s: LiveState, msg: ServerMessage, clock: int, now: int): LiveState
  {
    var s1 := AfterAudio(s, msg, clock);
    AfterTurn(s1.(buffers := AfterTranscripts(s1.buffers, msg)), msg, now)
  }

  /** The effect of one `onmessage` call. */
  function ApplyMessage(s: LiveState, msg: ServerMessage, clock: int, now: int): LiveState
  {
    var s4 := AfterTools(BeforeTools(s, msg, clock, now), HandledCalls(msg), now);
    if Aborts(msg) then s4 else AfterInterrupt(s4, msg)
  }

  /**
   * ApplyMessage, field group by field group: the connection and speech
   * state never change; the playback state depends only on the audio and
   * the interruption; the tool calls only append.
   */
  lemma {:induction false} ApplyMessageParts(s: LiveState, msg: ServerMessage, clock: int, now: int)
    ensures var t := ApplyMessage(s, msg, clock, now);
      var b := BeforeTools(s, msg, clock, now);
      var calls := HandledCalls(msg);
      var interrupts := msg.interrupted && !Aborts(msg);
      var p := if PlaysAudio(s.conn, msg) then ScheduleChunk(s.playback, msg.audio.value, clock) else s.playback;
      t.conn == s.conn && t.speech == s.speech &&
      t.playback == (if interrupts then p.(stopped := p.stopped + p.sources, sources := {}, cursor := 0) else p) &&
      t.buffers == (if interrupts then b.buffers.(thinking := false, partialOutput := "") else b.buffers) &&
      t.transcript == b.transcript + ToolEntriesFor(calls, now) &&
      t.effects == Effects(s.effects.outbox + ResponsesFor(calls),
                           s.effects.createdLogs + PayloadsFor(calls),
                           s.effects.savedReminders + RemindersFor(calls),
                           s.effects.refreshes + |RemindersFor(calls)|)
  {
    AfterToolsEffects(BeforeTools(s, msg, clock, now), HandledCalls(msg), now);
  }

  /** Output text is appended to its accumulator and raises the thinking flag; input likewise. */
  lemma TranscriptionDeltas(s: LiveState, msg: ServerMessage, clock: int, now: int)
    requires !msg.turnComplete
    ensures var t := ApplyMessage(s, msg, clock, now);
      var input := if msg.inputTranscription.Some? then msg.inputTranscription.value else "";
      var output := if msg.outputTranscription.Some? then msg.outputTranscription.value else "";
      t.buffers.inputText == s.buffers.inputText + input &&
      t.buffers.outputText == s.buffers.outputText + output &&
      (msg.outputTranscription.Some? && (Aborts(msg) || !msg.interrupted) ==> t.buffers.thinking) &&
      (msg.inputTranscription.Some? ==> t.buffers.partialInput == t.buffers.inputText)
  {
    ApplyMessageParts(s, msg, clock, now);
  }

  /**
   * The transcript, the responses and the callback records only grow, and
   * the playback invariant is kept.
   */
  lemma ApplyMessageInvariants(s: LiveState, msg: ServerMessage, clock: int, now: int)
    requires PlaybackValid(s.playback)
    ensures var t := ApplyMessage(s, msg, clock, now);
      PlaybackValid(t.playback) &&
      |s.transcript| <= |t.transcript| && t.transcript[..|s.transcript|] == s.transcript &&
      |s.effects.outbox| <= |t.effects.outbox| && t.effects.outbox[..|s.effects.outbox|] == s.effects.outbox &&
      |s.effects.createdLogs| <= |t.effects.createdLogs| &&
      t.effects.createdLogs[..|s.effects.createdLogs|] == s.effects.createdLogs &&
      s.playback.stopped <= t.playback.stopped && s.playback.nextSourceId <= t.playback.nextSourceId
  {
    ApplyMessageParts(s, msg, clock, now);
    if PlaysAudio(s.conn, msg) { ScheduleChunkSpec(s.playback, msg.audio.value, clock); }
    var b := BeforeTools(s, msg, clock, now);
    assert b.transcript[..|s.transcript|] == s.transcript;
  }

  /**
   * Audio: when the session plays audio, exactly one chunk is scheduled, at
   * max(cursor, clock), with a fresh source; when it is muted (as captured
   * at session start) or the message has no audio, nothing is scheduled
   * and, unless the message also interrupts, the cursor and the playing set
   * do not move.
   */
  lemma AudioSpec(s: LiveState, msg: ServerMessage, clock: int, now: int)
    ensures var t := ApplyMessage(s, msg, clock, now);
      var p := s.playback;
      (PlaysAudio(s.conn, msg) ==>
         |t.playback.scheduled| == |p.scheduled| + 1 &&
         t.playback.scheduled[|p.scheduled|] == ScheduledChunk(p.nextSourceId, Max(p.cursor, clock), msg.audio.value) &&
         (!msg.interrupted || Aborts(msg) ==> t.playback.cursor == Max(p.cursor, clock) + msg.audio.value)) &&
      (!PlaysAudio(s.conn, msg) ==>
         t.playback.scheduled == p.scheduled &&
         (!msg.interrupted || Aborts(msg) ==> t.playback.cursor == p.cursor && t.playback.sources == p.sources))
  {
    ApplyMessageParts(s, msg, clock, now);
  }

  /**
   * Muting changes only the playback side: transcripts, accumulators, tool
   * effects and responses are the same as when the session is not muted.
   */
  lemma MuteAffectsOnlyPlayback(s: LiveState, msg: ServerMessage, clock: int, now: int)
    ensures var a := ApplyMessage(s.(conn := s.conn.(capturedMuted := true)), msg, clock, now);
      var b := ApplyMessage(s.(conn := s.conn.(capturedMuted := false)), msg, clock, now);
      a.transcript == b.transcript && a.buffers == b.buffers && a.effects == b.effects
  {
    ApplyMessageParts(s.(conn := s.conn.(capturedMuted := true)), msg, clock, now);
    ApplyMessageParts(s.(conn := s.conn.(capturedMuted := false)), msg, clock, now);
  }

  /**
   * An interrupting message stops every playing source, empties the set,
   * resets the cursor and clears the thinking flag and the displayed
   * partial output, but leaves the output accumulator as it was.
   */
  lemma InterruptSpec(s: LiveState, msg: ServerMessage, clock: int, now: int)
    requires msg.interrupted && !Aborts(msg) && !msg.turnComplete
    requires msg.outputTranscription.None? && !PlaysAudio(s.conn, msg)
    ensures var t := ApplyMessage(s, msg, clock, now);
      t.playback.stopped == s.playback.stopped + s.playback.sources &&
      t.playback.sources == {} && t.playback.cursor == 0 &&
      !t.buffers.thinking && t.buffers.partialOutput == "" && t.buffers.outputText == s.buffers.outputText
  {
    ApplyMessageParts(s, msg, clock, now);
  }

  /**
   * An interruption does not empty the output accumulator, so text the
   * model had spoken before it is still recorded as an AI entry at the next
   * turnComplete (with the texts captured before the accumulators are
   * emptied, as `AfterTurn` does).
   */
  lemma InterruptedOutputStillFinalised(s: LiveState, clock: int, now: int, later: int)
    requires s.buffers.outputText != ""
    ensures var interrupt := ServerMessage(None, None, None, false, None, true);
      var complete := ServerMessage(None, None, None, true, None, false);
      var t := ApplyMessage(ApplyMessage(s, interrupt, clock, now), complete, clock, later);
      |t.transcript| > |s.transcript| &&
      t.transcript[|t.transcript| - 1] == TranscriptionItem(AiSender, s.buffers.outputText, later)
  {
    var interrupt := ServerMessage(None, None, None, false, None, true);
    var complete := ServerMessage(None, None, None, true, None, false);
    ApplyMessageParts(s, interrupt, clock, now);
    var t1 := ApplyMessage(s, interrupt, clock, now);
    ApplyMessageParts(t1, complete, clock, later);
  }

  /** A handled `logData` call creates exactly one log, one entry and one response with its id. */
  lemma LogDataScenario(s: LiveState, fc: FunctionCall, now: int)
    requires fc.name == LOG_DATA && "type" in fc.args && fc.args["type"].Str?
    ensures var msg := ServerMessage(None, None, None, false, Some([fc]), false);
      var t := ApplyMessage(s, msg, 0, now);
      t.effects == s.effects.(createdLogs := s.effects.createdLogs + [LogPayload(fc)],
                              outbox := s.effects.outbox + [ToolResponse(fc.id, LOG_DATA, "Success.")]) &&
      t.transcript == s.transcript + [TranscriptionItem(AiSender, LoggedText(fc), now)]
  {
    var msg := ServerMessage(None, None, None, false, Some([fc]), false);
    assert [fc][..1] == [fc];
    assert HandledCalls(msg) == [fc];
    assert [fc][..0] == [];
    ApplyMessageParts(s, msg, 0, now);
  }

  /** A handled `setReminder` call saves one reminder, refreshes once and queues "Reminder active.". */
  lemma SetReminderScenario(s: LiveState, fc: FunctionCall, now: int)
    requires fc.name == SET_REMINDER && "type" in fc.args && fc.args["type"].Str?
    ensures var msg := ServerMessage(None, None, None, false, Some([fc]), false);
      var t := ApplyMessage(s, msg, 0, now);
      var draft := ReminderDraft(ArgText(fc.args, "time"), ArgText(fc.args, "label"), Upper(fc.args["type"].s), false);
      t.effects == s.effects.(savedReminders := s.effects.savedReminders + [draft],
                              refreshes := s.effects.refreshes + 1,
                              outbox := s.effects.outbox + [ToolResponse(fc.id, SET_REMINDER, "Reminder active.")]) &&
      t.transcript == s.transcript + [TranscriptionItem(AiSender, ReminderText(fc), now)]
  {
    var msg := ServerMessage(None, None, None, false, Some([fc]), false);
    assert [fc][..1] == [fc];
    assert HandledCalls(msg) == [fc];
    assert [fc][..0] == [];
    ApplyMessageParts(s, msg, 0, now);
  }

  /**
   * A call whose `type` is not a string stops the handler: calls after it
   * have no effect and an `interrupted` flag on the same message is not acted on.
   */
  lemma ThrowingCallAborts(s: LiveState, good: FunctionCall, bad: FunctionCall, clock: int, now: int)
    requires !Throws(good) && Throws(bad)
    ensures var msg := ServerMessage(None, None, None, false, Some([bad, good]), true);
      ApplyMessage(s, msg, clock, now) == s
  {
    var msg := ServerMessage(None, None, None, false, Some([bad, good]), true);
    assert FirstThrow([bad, good]) == 0;
    assert HandledCalls(msg) == [];
  }

  // ---------------------------------------------------------------------
  // The session object

  /** The state `stopTTS` leaves: the held speech source, if any, stopped and released. */
  function AfterStopTTS(s: LiveState): LiveState
  {
    if s.speech.ttsSource.None? then s
    else s.(playback := s.playback.(stopped := s.playback.stopped + {s.speech.ttsSource.value}),
            speech := Speech(None, None))
  }

  class LiveSession {
    var conn: Connection
    var buffers: Buffers
    var transcript: seq<TranscriptionItem>
    var playback: Playback
    var effects: Effects
    var speech: Speech

    function State(): LiveState
      reads this
    {
      LiveState(conn, buffers, transcript, playback, effects, speech)
    }

    ghost predicate Valid()
      reads this
    {
      PlaybackValid(playback)
    }

    constructor ()
      ensures Valid()
      ensures conn == Connection(false, false, false, None, false, false, false, false, 0)
      ensures buffers == Buffers("", "", "", "", false) && transcript == []
      ensures playback == Playback(0, {}, 0, [], {})
      ensures effects == Effects([], [], [], 0) && speech == Speech(None, None)
    {
      conn := Connection(false, false, false, None, false, false, false, false, 0);
      buffers := Buffers("", "", "", "", false);
      transcript := [];
      playback := Playback(0, {}, 0, [], {});
      effects := Effects([], [], [], 0);
      speech := Speech(None, None);
    }

    /** The `for (const fc of functionCalls)` loop; stops at the first call that throws. */
    method DispatchToolCalls(calls: seq<FunctionCall>, now: int) returns (aborted: bool)
      modifies this
      ensures aborted <==> FirstThrow(calls) < |calls|
      ensures State() == AfterTools(old(State()), calls[..FirstThrow(calls)], now)
    {
      ghost var s0 := State();
      var i := 0;
      aborted := false;
      while i < |calls|
        invariant 0 <= i <= |calls|
        invariant NoThrow(calls[..i])
        invariant State() == AfterTools(s0, calls[..i], now)
      {
        var fc := calls[i];
        if fc.name == LOG_DATA || fc.name == SET_REMINDER {
          if !("type" in fc.args && fc.args["type"].Str?) {
            aborted := true;
            break;
          }
        }
        assert calls[..i + 1][..i] == calls[..i];
        if fc.name == LOG_DATA {
          var logType := Upper(fc.args["type"].s);
          var payload := fc.args["type" := Str(logType)]["value" := Str(ArgText(fc.args, "value"))];
          effects := effects.(createdLogs := effects.createdLogs + [payload]);
          transcript := transcript + [TranscriptionItem(AiSender, LoggedText(fc), now)];
          effects := effects.(outbox := effects.outbox + [ToolResponse(fc.id, fc.name, "Success.")]);
        } else if fc.name == SET_REMINDER {
          var draft := ReminderDraft(ArgText(fc.args, "time"), ArgText(fc.args, "label"), Upper(fc.args["type"].s), false);
          effects := effects.(savedReminders := effects.savedReminders + [draft]);
          effects := effects.(refreshes := effects.refreshes + 1);
          transcript := transcript + [TranscriptionItem(AiSender, ReminderText(fc), now)];
          effects := effects.(outbox := effects.outbox + [ToolResponse(fc.id, fc.name, "Reminder active.")]);
        }
        i := i + 1;
      }
      FirstThrowAt(calls, i, aborted);
    }

    /** The audio part of `onmessage`: schedule the chunk unless muted or without an output context. */
    method PlayChunk(msg: ServerMessage, clock: int)
      modifies this
      ensures State() == AfterAudio(old(State()), msg, clock)
    {
      if msg.audio.Some? && conn.hasOutputContext && !conn.capturedMuted {
        var start := Max(playback.cursor, clock);
        var source := playback.nextSourceId;
        playback := playback.(nextSourceId := source + 1);
        playback := playback.(scheduled := playback.scheduled + [ScheduledChunk(source, start, msg.audio.value)]);
        playback := playback.(cursor := start + msg.audio.value);
        playback := playback.(sources := playback.sources + {source});
      }
    }

    /** The two transcription parts of `onmessage`. */
    method AccumulateTranscriptions(msg: ServerMessage)
      modifies this
      ensures State() == old(State()).(buffers := AfterTranscripts(old(buffers), msg))
    {
      if msg.inputTranscription.Some? {
        var text := buffers.inputText + msg.inputTranscription.value;
        buffers := buffers.(inputText := text, partialInput := text);
      }
      if msg.outputTranscription.Some? {
        var text := buffers.outputText + msg.outputTranscription.value;
        buffers := buffers.(outputText := text, partialOutput := text, thinking := true);
      }
    }

    /** The turnComplete part of `onmessage`. */
    method CompleteTurn(msg: ServerMessage, now: int)
      modifies this
      ensures State() == AfterTurn(old(State()), msg, now)
    {
      if msg.turnComplete {
        if buffers.inputText != "" {
          transcript := transcript + [TranscriptionItem(UserSender, buffers.inputText, now)];
        }
        if buffers.outputText != "" {
          transcript := transcript + [TranscriptionItem(AiSender, buffers.outputText, now)];
        }
        buffers := Buffers("", "", "", "", false);
      }
    }

    /** The interrupted part of `onmessage`. */
    method Interrupt(msg: ServerMessage)
      modifies this
      ensures State() == AfterInterrupt(old(State()), msg)
    {
      if msg.interrupted {
        playback := playback.(stopped := playback.stopped + playback.sources);
        playback := playback.(sources := {}, cursor := 0);
        buffers := buffers.(thinking := false, partialOutput := "");
      }
    }

    /**
     * `onmessage`: `clock` is the output context's `currentTime`, `now` is
     * `Date.now()`.
     */
    method OnMessage(msg: ServerMessage, clock: int, now: int)
      requires Valid()
      modifies this
      ensures Valid()
      ensures State() == ApplyMessage(old(State()), msg, clock, now)
    {
      ghost var s0 := State();
      ApplyMessageInvariants(s0, msg, clock, now);
      PlayChunk(msg, clock);
      AccumulateTranscriptions(msg);
      CompleteTurn(msg, now);
      assert State() == BeforeTools(s0, msg, clock, now);
      var aborted := false;
      if msg.toolCall.Some? {
        aborted := DispatchToolCalls(msg.toolCall.value, now);
      }
      if aborted {
        return;
      }
      Interrupt(msg);
    }

    /** A scheduled source's `ended` event removes it from the playing set. */
    method OnSourceEnded(source: nat)
      requires Valid()
      modifies this
      ensures Valid()
      ensures State() == old(State()).(playback := old(playback).(sources := old(playback.sources) - {source}))
    {
      playback := playback.(sources := playback.sources - {source});
    }

    method SetMuted(m: bool)
      modifies this
      ensures State() == old(State()).(conn := old(conn).(muted := m))
    {
      conn := conn.(muted := m);
    }

    /**
     * `startSession`: a no-op while active. Otherwise it clears the error; a
     * refused microphone or a failed connection leaves the error text
     * "Mic required for voice.". The message callback keeps the mute flag of
     * this moment.
     */
    method StartSession(micGranted: bool, connected: bool)
      modifies this
      ensures old(conn.active) ==> State() == old(State())
      ensures !old(conn.active) && !micGranted ==>
                State() == old(State()).(conn := old(conn).(error := Some("Mic required for voice.")))
      ensures !old(conn.active) && micGranted ==>
                State() == old(State()).(conn := old(conn).(
                  error := if connected then None else Some("Mic required for voice."),
                  hasInputContext := true, hasOutputContext := true,
                  capturedMuted := old(conn.muted), hasSession := connected || old(conn.hasSession)))
    {
      if conn.active {
        return;
      }
      conn := conn.(error := None);
      if !micGranted {
        conn := conn.(error := Some("Mic required for voice."));
        return;
      }
      conn := conn.(hasInputContext := true, hasOutputContext := true);
      conn := conn.(capturedMuted := conn.muted);
      if !connected {
        conn := conn.(error := Some("Mic required for voice."));
        return;
      }
      conn := conn.(hasSession := true);
    }

    /** `onopen`: the capture processor is attached and the session becomes active. */
    method OnOpen()
      modifies this
      ensures State() == old(State()).(conn := old(conn).(hasProcessor := true, active := true))
    {
      conn := conn.(hasProcessor := true, active := true);
    }

    /**
     * `stopSession`: releases the session, the capture processor and the
     * input context; inactive, empty partial displays, audio level 0. The
     * accumulators, the playback state and the output context are untouched.
     */
    method StopSession()
      modifies this
      ensures State() == old(State()).(
        conn := old(conn).(hasSession := false, hasProcessor := false, hasInputContext := false,
                           active := false, audioLevel := 0),
        buffers := old(buffers).(partialInput := "", partialOutput := ""))
    {
      conn := conn.(hasSession := false);
      conn := conn.(hasProcessor := false);
      conn := conn.(hasInputContext := false);
      conn := conn.(active := false);
      buffers := buffers.(partialInput := "", partialOutput := "");
      conn := conn.(audioLevel := 0);
    }

    /** `onerror`: sets the error text, then stops the session. */
    method OnError()
      modifies this
      ensures State() == old(State()).(
        conn := old(conn).(error := Some("Session issue. Restarting..."),
                           hasSession := false, hasProcessor := false, hasInputContext := false,
                           active := false, audioLevel := 0),
        buffers := old(buffers).(partialInput := "", partialOutput := ""))
    {
      conn := conn.(error := Some("Session issue. Restarting..."));
      StopSession();
    }

    /** `onclose`. */
    method OnClose()
      modifies this
      ensures State() == old(State()).(conn := old(conn).(active := false))
    {
      conn := conn.(active := false);
    }

    /** `stopTTS`: stops and releases the held speech source, if any. */
    method StopTTS()
      modifies this
      ensures old(speech.ttsSource).None? ==> State() == old(State())
      ensures old(speech.ttsSource).Some? ==>
                State() == old(State()).(
                  playback := old(playback).(stopped := old(playback.stopped) + {old(speech.ttsSource).value}),
                  speech := Speech(None, None))
    {
      if speech.ttsSource.Some? {
        playback := playback.(stopped := playback.stopped + {speech.ttsSource.value});
        speech := Speech(None, None);
      }
    }

    /**
     * `playSpeech(text, index)`, with the synthesis request's outcome as a
     * parameter. On the slot currently speaking it only stops; otherwise it
     * stops any held source, marks the slot, and either holds a fresh source
     * or, without audio, clears the slot again.
     */
    method PlaySpeech(index: int, outcome: SpeechOutcome)
      requires Valid()
      modifies this
      ensures Valid()
      ensures old(speech.speaking) == Some(index) ==> State() == AfterStopTTS(old(State()))
      ensures old(speech.speaking) != Some(index) && outcome != SpeechAudio ==>
                State() == AfterStopTTS(old(State())).(speech := Speech(None, None))
      ensures old(speech.speaking) != Some(index) && outcome == SpeechAudio ==>
                var s := AfterStopTTS(old(State()));
                State() == s.(conn := s.conn.(hasOutputContext := true),
                              playback := s.playback.(nextSourceId := old(playback.nextSourceId) + 1),
                              speech := Speech(Some(index), Some(old(playback.nextSourceId))))
    {
      if speech.speaking == Some(index) {
        StopTTS();
        return;
      }
      StopTTS();
      speech := speech.(speaking := Some(index));
      if outcome == SpeechAudio {
        conn := conn.(hasOutputContext := true);
        var source := playback.nextSourceId;
        playback := playback.(nextSourceId := source + 1);
        speech := speech.(ttsSource := Some(source));
      } else {
        speech := speech.(speaking := None);
      }
    }

    /** A speech source's `ended` event clears the slot only if it is still the held source. */
    method OnSpeechEnded(source: nat)
      modifies this
      ensures old(speech.ttsSource) == Some(source) ==> State() == old(State()).(speech := Speech(None, None))
      ensures old(speech.ttsSource) != Some(source) ==> State() == old(State())
    {
      if speech.ttsSource == Some(source) {
        speech := Speech(None, None);
      }
    }
  }

  /** The loop's exit index is the first throwing call. */
  lemma FirstThrowAt(calls: seq<FunctionCall>, i: nat, aborted: bool)
    requires i <= |calls| && NoThrow(calls[..i])
    requires aborted ==> i < |calls| && Throws(calls[i])
    requires !aborted ==> i == |calls|
    ensures FirstThrow(calls) == i
    ensures aborted <==> FirstThrow(calls) < |calls|
  {
    assert forall j :: 0 <= j < i ==> calls[..i][j] == calls[j];
  }
}
