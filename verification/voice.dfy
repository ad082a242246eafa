/** The relay logic of backend/voice.py: the realtime tool list, the
    realtime endpoint URI, the browser-to-realtime mute filter, the
    per-event dispatch of realtime events to the browser and the realtime
    service, and the messages that open and close a voice session.

    The two relay directions run concurrently in the source; here each is
    a fold over the frames it consumed, and which of them finished first
    is a parameter. Serialisation is not modelled: a message is its
    structured value. */
module Voice {
  import opened Wrappers
  import opened Strings
  import opened Json
  import opened Modes
  import opened Tools
  import Images
  import Chat

  const ApiVersion := "2025-04-01-preview"

  // ---------------------------------------------------------------------
  // Tools in the realtime format

  /** A tool as the realtime API takes it: the chat-completions function
      fields lifted to the top level. */
  datatype RealtimeTool = RealtimeTool(kind: string, name: string, description: string, parameters: Json)

  function Flatten(t: ToolDefinition): RealtimeTool {
    RealtimeTool("function", t.spec.name, t.spec.description, t.spec.parameters)
  }

  /** build_realtime_tools: the function tools, in order, flattened. */
  function BuildRealtimeTools(defs: seq<ToolDefinition>): (r: seq<RealtimeTool>)
    ensures |r| <= |defs|
    ensures forall i :: 0 <= i < |r| ==> r[i].kind == "function"
  {
    if |defs| == 0 then []
    else (if defs[0].kind == "function" then [Flatten(defs[0])] else []) + BuildRealtimeTools(defs[1..])
  }

  lemma {:induction false} RealtimeToolsAppend(a: seq<ToolDefinition>, b: seq<ToolDefinition>)
    ensures BuildRealtimeTools(a + b) == BuildRealtimeTools(a) + BuildRealtimeTools(b)
  {
    if |a| > 0 {
      assert (a + b)[1..] == a[1..] + b;
      RealtimeToolsAppend(a[1..], b);
    } else {
      assert a + b == b;
    }
  }

  /** When every definition is a function tool, each one is kept, in place. */
  lemma {:induction false} AllFunctionsKept(defs: seq<ToolDefinition>)
    requires forall i :: 0 <= i < |defs| ==> defs[i].kind == "function"
    ensures |BuildRealtimeTools(defs)| == |defs|
    ensures forall i :: 0 <= i < |defs| ==> BuildRealtimeTools(defs)[i] == Flatten(defs[i])
  {
    if |defs| > 0 {
      AllFunctionsKept(defs[1..]);
    }
  }

  /** Definitions of another type are dropped. */
  lemma {:induction false} OthersDropped(defs: seq<ToolDefinition>)
    requires forall i :: 0 <= i < |defs| ==> defs[i].kind != "function"
    ensures BuildRealtimeTools(defs) == []
  {
    if |defs| > 0 {
      OthersDropped(defs[1..]);
    }
  }

  /** The voice session offers `show_chart` and `show_metrics`. */
  lemma SessionTools()
    ensures |BuildRealtimeTools(ToolDefinitions)| == 2
    ensures BuildRealtimeTools(ToolDefinitions)[0].name == "show_chart"
    ensures BuildRealtimeTools(ToolDefinitions)[1].name == "show_metrics"
  {
    ToolDefinitionsShape();
    AllFunctionsKept(ToolDefinitions);
  }

  // ---------------------------------------------------------------------
  // The realtime endpoint

  /** The endpoint with every "https://" and then every "http://" deleted. */
  function StripScheme(endpoint: string): (r: string)
    ensures |r| <= |endpoint|
    ensures ':' !in endpoint ==> r == endpoint
    ensures StartsWith(endpoint, "https://") && ':' !in endpoint[8..] ==> r == endpoint[8..]
  {
    SchemeFree(endpoint);
    RemoveAll(RemoveAll(endpoint, "https://"), "http://")
  }

  lemma SchemeFree(endpoint: string)
    ensures ':' !in endpoint ==> RemoveAll(RemoveAll(endpoint, "https://"), "http://") == endpoint
    ensures StartsWith(endpoint, "https://") && ':' !in endpoint[8..] ==>
      RemoveAll(RemoveAll(endpoint, "https://"), "http://") == endpoint[8..]
  {
    assert "https://"[5] == ':' && "http://"[4] == ':';
    if ':' !in endpoint {
      RemoveAllAbsent(endpoint, "https://", 5);
      RemoveAllAbsent(endpoint, "http://", 4);
    }
    if StartsWith(endpoint, "https://") && ':' !in endpoint[8..] {
      RemoveAllAbsent(endpoint[8..], "https://", 5);
      RemoveAllAbsent(endpoint[8..], "http://", 4);
    }
  }

  /** Lines 78-81: the scheme-less endpoint without trailing '/' and without
      one trailing "/models" (the same trimming the image URL applies). */
  function EndpointHost(endpoint: string): (host: string)
    ensures StartsWith(StripScheme(endpoint), host)
  {
    Images.ImageBase(StripScheme(endpoint))
  }

  function RealtimeUri(endpoint: string, deployment: string): (uri: string)
    ensures StartsWith(uri, "wss://" + EndpointHost(endpoint) + "/openai/realtime?api-version=")
    ensures EndsWith(uri, "&deployment=" + deployment)
  {
    var head := "wss://" + EndpointHost(endpoint) + "/openai/realtime?api-version=";
    var tail := "&deployment=" + deployment;
    var uri := head + ApiVersion + tail;
    assert uri[..|head|] == head;
    assert uri[|uri| - |tail|..] == tail;
    uri
  }

  /** A project endpoint `https://<host>/models/` connects to `<host>`. */
  lemma ProjectEndpointHost(host: string)
    requires ':' !in host && (|host| == 0 || host[|host| - 1] != '/')
    ensures EndpointHost("https://" + host + "/models/") == host
  {
    var rest := host + "/models/";
    var e := "https://" + host + "/models/";
    assert e == "https://" + rest;
    assert e[..8] == "https://" && e[8..] == rest;
    assert ':' !in rest by {
      forall i | 0 <= i < |rest| ensures rest[i] != ':' {
        if i < |host| { assert rest[i] == host[i]; }
        else { assert rest[i] == "/models/"[i - |host|]; }
      }
    }
    assert StripScheme(e) == rest;
    Images.ProjectEndpoint(host);
  }

  // ---------------------------------------------------------------------
  // Messages

  /** Messages to the realtime service. */
  datatype Upstream =
    | SessionUpdate(instructions: string, tools: seq<RealtimeTool>)
    | AudioAppend(audio: Json)
    | ResponseCancel
    | FunctionCallOutput(callId: Json, output: Object)
    | ResponseCreate

  /** Messages to the browser. `SessionError` is the `error` message of a
      failed session, whose text (`str(e)`) is not modelled. */
  datatype Downstream =
    | Status(status: string)
    | SpeechStarted
    | SpeechStopped
    | Transcript(role: string, text: Json)
    | ModeGenerating(industry: string)
    | Audio(data: Json)
    | ToolResult(tool: Json, result: Object)
    | ErrorEvent(error: Json)
    | SessionError

  /** One send, in the order the relay performs them. */
  datatype Send = Up(up: Upstream) | Down(down: Downstream)

  /** How a relay direction ended: the browser asked to stop, the realtime
      connection closed, or the loop raised. */
  datatype End = Stopped | Closed | Faulted

  datatype Relay = Relay(sent: seq<Send>, end: End)

  // ---------------------------------------------------------------------
  // Browser to realtime

  predicate IsAudioAppend(s: Send) {
    s.Up? && s.up.AudioAppend?
  }

  /** browser_to_realtime from the given `muted` state. A frame that does not
      decode to an object raises; running out of frames is the browser
      disconnecting, which `receive_text` raises too. */
  function BrowserToRealtime(frames: seq<string>, parse: string -> Option<Json>, muted: Json): (r: Relay)
    ensures forall i :: 0 <= i < |r.sent| ==> IsAudioAppend(r.sent[i])
    ensures |r.sent| <= |frames|
    ensures r.end != Closed
  {
    if |frames| == 0 then Relay([], Faulted)
    else match parse(frames[0])
      case Some(JObj(m)) =>
        var kind := Get(m, "type");
        if kind == Some(JStr("audio")) then
          var rest := BrowserToRealtime(frames[1..], parse, muted);
          var out := if Truthy(muted) then [] else [Up(AudioAppend(GetOr(m, "data", JStr(""))))];
          Relay(out + rest.sent, rest.end)
        else if kind == Some(JStr("mute")) then
          BrowserToRealtime(frames[1..], parse, GetOr(m, "muted", JBool(false)))
        else if kind == Some(JStr("stop")) then Relay([], Stopped)
        else BrowserToRealtime(frames[1..], parse, muted)
      case _ => Relay([], Faulted)
  }

  /** An audio frame is forwarded, with its `data`, exactly when not muted. */
  lemma AudioForwardedIffUnmuted(f: string, rest: seq<string>, parse: string -> Option<Json>,
                                 muted: Json, m: Object)
    requires parse(f) == Some(JObj(m)) && Get(m, "type") == Some(JStr("audio"))
    ensures var r := BrowserToRealtime([f] + rest, parse, muted);
      var tail := BrowserToRealtime(rest, parse, muted);
      (!Truthy(muted) ==> r.sent == [Up(AudioAppend(GetOr(m, "data", JStr(""))))] + tail.sent)
      && (Truthy(muted) ==> r.sent == tail.sent)
  {
    assert ([f] + rest)[1..] == rest;
  }

  /** A message of type "mute" without a `muted` field unmutes. */
  lemma BareMuteUnmutes(f: string, rest: seq<string>, parse: string -> Option<Json>, muted: Json, m: Object)
    requires parse(f) == Some(JObj(m)) && Get(m, "type") == Some(JStr("mute")) && "muted" !in m
    ensures BrowserToRealtime([f] + rest, parse, muted) == BrowserToRealtime(rest, parse, JBool(false))
  {
    assert ([f] + rest)[1..] == rest;
  }

  /** A frame that is a `mute` message. */
  predicate IsMuteFrame(f: string, parse: string -> Option<Json>) {
    parse(f).Some? && parse(f).value.JObj? && Get(parse(f).value.fields, "type") == Some(JStr("mute"))
  }

  /** While muted, and with no `mute` message to change that, nothing
      reaches the realtime service. */
  lemma {:induction false} MutedSendsNothing(frames: seq<string>, parse: string -> Option<Json>, muted: Json)
    requires Truthy(muted)
    requires forall i :: 0 <= i < |frames| ==> !IsMuteFrame(frames[i], parse)
    ensures BrowserToRealtime(frames, parse, muted).sent == []
  {
    if |frames| > 0 {
      assert !IsMuteFrame(frames[0], parse);
      MutedSendsNothing(frames[1..], parse, muted);
    }
  }

  /** The session starts unmuted: a first audio frame is forwarded. */
  lemma StartsUnmuted(f: string, rest: seq<string>, parse: string -> Option<Json>, m: Object)
    requires parse(f) == Some(JObj(m)) && Get(m, "type") == Some(JStr("audio"))
    ensures BrowserToRealtime([f] + rest, parse, JBool(false)).sent[0] == Up(AudioAppend(GetOr(m, "data", JStr(""))))
  {
    AudioForwardedIffUnmuted(f, rest, parse, JBool(false), m);
  }

  // ---------------------------------------------------------------------
  // Realtime to browser

  const SpeechStartedEvent := "input_audio_buffer.speech_started"
  const SpeechStoppedEvent := "input_audio_buffer.speech_stopped"
  const UserTranscriptEvent := "conversation.item.input_audio_transcription.completed"
  const AudioDeltaEvent := "response.audio.delta"
  const TranscriptDeltaEvent := "response.audio_transcript.delta"
  const ToolCallEvent := "response.function_call_arguments.done"

  /** The sends one event causes, and whether handling it raised. */
  datatype Step = Step(sent: seq<Send>, fault: bool)

  /** A completed user transcript, lines 194-217: shown to the browser; one
      mentioning "presto" also cancels the response in flight and announces
      a mode being generated. The mode-switch branch that follows is passed
      in as `switch` (None: no switch). */
  function UserTranscript(t: Json, switch: string -> Option<seq<Send>>): (s: Step)
    ensures !Truthy(t) ==> s == Step([], false)
    ensures Truthy(t) ==> |s.sent| >= 1 && s.sent[0] == Down(Transcript("user", t))
    ensures Truthy(t) && !t.JStr? ==> s == Step([Down(Transcript("user", t))], true)
  {
    if !Truthy(t) then Step([], false)
    else
      var shown := [Down(Transcript("user", t))];
      if !t.JStr? then Step(shown, true)
      else
        var early := if Contains(Lower(t.s), "presto") then [Up(ResponseCancel), Down(ModeGenerating(""))] else [];
        match switch(t.s)
        case None => Step(shown + early, false)
        case Some(sends) => Step(shown + early + sends, false)
  }

  /** The tool-call branch, lines 298-333. Arguments that are not a string
      make the log line's slice or `json.loads` raise; unparseable
      arguments are logged and nothing is sent; arguments the tool cannot
      read make `execute_tool` raise. */
  function ToolCall(e: Object, parse: string -> Option<Json>): (s: Step)
    ensures !s.fault && s.sent != [] ==>
      exists result :: s.sent == [Down(ToolResult(GetOr(e, "name", JStr("")), result)),
                                  Up(FunctionCallOutput(GetOr(e, "call_id", JStr("")), result)),
                                  Up(ResponseCreate)]
  {
    var callId := GetOr(e, "call_id", JStr(""));
    var name := GetOr(e, "name", JStr(""));
    var args := GetOr(e, "arguments", JStr("{}"));
    if !args.JStr? then Step([], true)
    else match parse(args.s)
      case None => Step([], false)
      case Some(a) =>
        match ApplyTool(Show(name), a)
        case None => Step([], true)
        case Some(result) =>
          Step([Down(ToolResult(name, result)), Up(FunctionCallOutput(callId, result)), Up(ResponseCreate)], false)
  }

  /** The dispatch of one decoded realtime event, lines 166-343, with the
      user-transcript branch completed by `switch`. */
  function RealtimeEvent(event: Json, parse: string -> Option<Json>, switch: string -> Option<seq<Send>>): (s: Step)
    ensures !event.JObj? ==> s == Step([], true)
    ensures event.JObj? && GetOr(event.fields, "type", JStr("")) == JStr(SpeechStartedEvent) ==>
      s == Step([Up(ResponseCancel), Down(SpeechStarted)], false)
    ensures event.JObj? && GetOr(event.fields, "type", JStr("")) == JStr(SpeechStoppedEvent) ==>
      s == Step([Down(SpeechStopped)], false)
  {
    if !event.JObj? then Step([], true)
    else
      var e := event.fields;
      var kind := GetOr(e, "type", JStr(""));
      if kind == JStr(SpeechStartedEvent) then Step([Up(ResponseCancel), Down(SpeechStarted)], false)
      else if kind == JStr(SpeechStoppedEvent) then Step([Down(SpeechStopped)], false)
      else if kind == JStr(UserTranscriptEvent) then UserTranscript(GetOr(e, "transcript", JStr("")), switch)
      else if kind == JStr(AudioDeltaEvent) then
        var d := GetOr(e, "delta", JStr(""));
        Step(if Truthy(d) then [Down(Audio(d))] else [], false)
      else if kind == JStr(TranscriptDeltaEvent) then
        var d := GetOr(e, "delta", JStr(""));
        Step(if Truthy(d) then [Down(Transcript("assistant", d))] else [], false)
      else if kind == JStr(ToolCallEvent) then ToolCall(e, parse)
      else if kind == JStr("error") then
        var info := GetOr(e, "error", JObj(map[]));
        if !info.JObj? then Step([], true)
        else Step([Down(ErrorEvent(GetOr(info.fields, "message", JStr("Unknown error"))))], false)
      else Step([], false)
  }

  /** The mode switch as the transcript branch evidently means it: the
      keyword detection of the chat handler, whose effects (switching the
      mode, a new persona, the mode_switch message, the new instructions and
      the welcome response) are given by `effects`. */
  function DetectedSwitch(effects: string -> seq<Send>): string -> Option<seq<Send>> {
    (t: string) => match Chat.DetectModeSwitch(t) case None => None case Some(id) => Some(effects(id))
  }

  /** The dispatch as written: the transcript branch calls
      `detect_mode_switch(transcript, websocket)`, but that function takes one
      argument (backend/chat.py:117), so the call raises a TypeError and the
      relay ends after every non-empty user transcript. */
  function RealtimeEventAsWritten(event: Json, parse: string -> Option<Json>): (s: Step)
    ensures (event.JObj? && GetOr(event.fields, "type", JStr("")) == JStr(UserTranscriptEvent)
             && Truthy(GetOr(event.fields, "transcript", JStr("")))) ==> s.fault
  {
    if event.JObj? && GetOr(event.fields, "type", JStr("")) == JStr(UserTranscriptEvent) then
      var s := UserTranscript(GetOr(event.fields, "transcript", JStr("")), _ => None);
      Step(s.sent, s.fault || s.sent != [])
    else RealtimeEvent(event, parse, _ => None)
  }

  /** A realtime relay over events, given its per-event dispatch. The relay
      ends normally when the connection closes (the frames run out) and
      raises on an undecodable frame or a failing event. */
  function RealtimeFold(frames: seq<string>, parse: string -> Option<Json>, step: Json -> Step): (r: Relay)
    ensures r.end != Stopped
    ensures r.end == Closed <==> Handled(frames, parse, step)
  {
    if |frames| == 0 then Relay([], Closed)
    else
      assert Handled(frames, parse, step) <==>
        parse(frames[0]).Some? && !step(parse(frames[0]).value).fault && Handled(frames[1..], parse, step) by {
        if parse(frames[0]).Some? && !step(parse(frames[0]).value).fault && Handled(frames[1..], parse, step) {
          forall i | 0 <= i < |frames| ensures HandledAt(frames[i], parse, step) {
            if i > 0 { assert frames[i] == frames[1..][i - 1]; }
          }
        }
      }
      match parse(frames[0])
      case None => Relay([], Faulted)
      case Some(event) =>
        var s := step(event);
        if s.fault then Relay(s.sent, Faulted)
        else
          var rest := RealtimeFold(frames[1..], parse, step);
          Relay(s.sent + rest.sent, rest.end)
  }

  /** A frame that decodes to an event whose handling does not raise. */
  predicate HandledAt(frame: string, parse: string -> Option<Json>, step: Json -> Step) {
    parse(frame).Some? && !step(parse(frame).value).fault
  }

  predicate Handled(frames: seq<string>, parse: string -> Option<Json>, step: Json -> Step) {
    forall i :: 0 <= i < |frames| ==> HandledAt(frames[i], parse, step)
  }

  /** realtime_to_browser: it ends normally, when the service closes the
      connection, exactly when every event decoded and was handled without
      an exception. */
  function RealtimeToBrowser(frames: seq<string>, parse: string -> Option<Json>, effects: string -> seq<Send>)
    : (r: Relay)
    ensures r.end != Stopped
    ensures r.end == Closed <==>
      forall i :: 0 <= i < |frames| ==>
        parse(frames[i]).Some? && !RealtimeEvent(parse(frames[i]).value, parse, DetectedSwitch(effects)).fault
  {
    RealtimeFold(frames, parse, e => RealtimeEvent(e, parse, DetectedSwitch(effects)))
  }

  function RealtimeToBrowserAsWritten(frames: seq<string>, parse: string -> Option<Json>): Relay {
    RealtimeFold(frames, parse, e => RealtimeEventAsWritten(e, parse))
  }

  function UserTranscriptFrame(t: string): Json {
    JObj(map["type" := JStr(UserTranscriptEvent), "transcript" := JStr(t)])
  }

  /** As written, a plain user utterance ends the relay: the events after it
      are never read. */
  lemma AsWrittenTranscriptEndsRelay(f: string, rest: seq<string>, parse: string -> Option<Json>, t: string)
    requires t != "" && parse(f) == Some(UserTranscriptFrame(t))
    ensures RealtimeToBrowserAsWritten([f] + rest, parse).end == Faulted
    ensures RealtimeToBrowserAsWritten([f] + rest, parse).sent[0] == Down(Transcript("user", JStr(t)))
  {
    var e := UserTranscriptFrame(t);
    assert GetOr(e.fields, "type", JStr("")) == JStr(UserTranscriptEvent);
    assert GetOr(e.fields, "transcript", JStr("")) == JStr(t);
  }

  /** A user-transcript event goes to the transcript branch. */
  lemma TranscriptDispatch(event: Json, parse: string -> Option<Json>, switch: string -> Option<seq<Send>>)
    requires event.JObj? && GetOr(event.fields, "type", JStr("")) == JStr(UserTranscriptEvent)
    ensures RealtimeEvent(event, parse, switch) == UserTranscript(GetOr(event.fields, "transcript", JStr("")), switch)
  {
    assert UserTranscriptEvent != SpeechStartedEvent && UserTranscriptEvent != SpeechStoppedEvent;
  }

  /** With the mode switch wired as intended, an utterance that neither
      mentions "presto" nor triggers a switch is shown and the relay reads
      on. */
  lemma TranscriptContinues(f: string, rest: seq<string>, parse: string -> Option<Json>,
                            effects: string -> seq<Send>, t: string)
    requires t != "" && parse(f) == Some(UserTranscriptFrame(t))
    requires !Contains(Lower(t), "presto") && Chat.DetectModeSwitch(t).None?
    ensures var r := RealtimeToBrowser([f] + rest, parse, effects);
      r == Relay([Down(Transcript("user", JStr(t)))] + RealtimeToBrowser(rest, parse, effects).sent,
                 RealtimeToBrowser(rest, parse, effects).end)
  {
    var e := UserTranscriptFrame(t);
    assert GetOr(e.fields, "type", JStr("")) == JStr(UserTranscriptEvent);
    assert GetOr(e.fields, "transcript", JStr("")) == JStr(t);
    TranscriptDispatch(e, parse, DetectedSwitch(effects));
    assert RealtimeEvent(e, parse, DetectedSwitch(effects)) == Step([Down(Transcript("user", JStr(t)))], false);
    assert ([f] + rest)[1..] == rest;
  }

  /** A switched-to mode is announced with the effects for its id, after
      the transcript. */
  lemma SwitchRunsEffects(t: string, effects: string -> seq<Send>)
    requires Chat.DetectModeSwitch(t).Some?
    ensures var s := UserTranscript(JStr(t), DetectedSwitch(effects));
      !s.fault && s.sent[0] == Down(Transcript("user", JStr(t)))
      && s.sent[|s.sent| - |effects(Chat.DetectModeSwitch(t).value)|..] == effects(Chat.DetectModeSwitch(t).value)
  {
    TriggerHasPresto(t);
  }

  /** Both trigger phrases begin with "presto", so a text whose normal form
      lacks it switches nothing. */
  lemma TriggerHasPresto(t: string)
    requires Chat.DetectModeSwitch(t).Some?
    ensures Contains(Chat.Normalize(t), "presto")
  {
    var n := Chat.Normalize(t);
    var i :| 0 <= i < |Chat.TriggerPhrases| && Contains(n, Chat.TriggerPhrases[i]);
    var w := Chat.TriggerPhrases[i];
    assert w[..6] == "presto";
    var j :| 0 <= j <= |n| - |w| && OccursAt(n, w, j);
    assert n[j..j + |w|] == w;
    assert n[j..j + 6] == w[..6] by {
      forall k | 0 <= k < 6
        ensures n[j..j + 6][k] == w[..6][k]
      {
        assert n[j + k] == n[j..j + |w|][k];
      }
    }
    ContainsAt(n, "presto", j);
  }

  /** The early cancel looks for "presto" in the lower-cased transcript,
      before punctuation is deleted, while the switch looks at the normal
      form. So "p-resto change o bank" switches to banking with no cancel of
      the response in flight and no "mode_generating" notice. */
  lemma SwitchWithoutEarlyCancel(effects: string -> seq<Send>)
    ensures var t := "p-resto change o bank";
      Chat.DetectModeSwitch(t) == Some("banking") && !Contains(Lower(t), "presto")
      && UserTranscript(JStr(t), DetectedSwitch(effects))
         == Step([Down(Transcript("user", JStr(t)))] + effects("banking"), false)
  {
    var t := "p-resto change o bank";
    HyphenatedSwitches(t);
    HyphenatedLacksPresto();
    SwitchWithoutPresto(t, "banking", effects);
  }

  /** A switching transcript without "presto" in its lower-case form is shown
      and then switched on, with nothing in between. */
  lemma SwitchWithoutPresto(t: string, id: string, effects: string -> seq<Send>)
    requires Chat.DetectModeSwitch(t) == Some(id) && !Contains(Lower(t), "presto")
    ensures UserTranscript(JStr(t), DetectedSwitch(effects))
         == Step([Down(Transcript("user", JStr(t)))] + effects(id), false)
  {
    assert DetectedSwitch(effects)(t) == Some(effects(id));
  }

  lemma HyphenatedSwitches(t: string)
    requires t == "p-resto change o bank"
    ensures Chat.DetectModeSwitch(t) == Some("banking")
  {
    var n := "presto change o bank";
    HyphenatedNormal(t);
    assert OccursAt(n, Chat.TriggerPhrases[0], 0);
    assert OccursAt(n, Chat.BankingWords[0], 16);
  }

  lemma HyphenatedNormal(t: string)
    requires t == "p-resto change o bank"
    ensures Chat.Normalize(t) == "presto change o bank"
  {
    HyphenatedPieces("p", "-", "resto change o bank");
    HyphenatedConcat(t);
  }

  lemma HyphenatedPieces(p: string, h: string, rest: string)
    requires p == "p" && h == "-" && rest == "resto change o bank"
    ensures Chat.Normalize(p + h + rest) == p + rest
  {
    Chat.NormalizeKeeps(p);
    Chat.NormalizeKeeps(rest);
    Chat.NormalizeSplice(p, h, rest);
  }

  lemma HyphenatedConcat(t: string)
    requires t == "p-resto change o bank"
    ensures "p" + "-" + "resto change o bank" == t
    ensures "p" + "resto change o bank" == "presto change o bank"
  {
  }

  lemma HyphenatedLacksPresto()
    ensures !Contains(Lower("p-resto change o bank"), "presto")
  {
    var t := "p-resto change o bank";
    assert Lower(t) == t;
    assert forall i :: 0 <= i < |t| && t[i] == 'p' ==> i == 0;
    assert !OccursAt(t, "presto", 0) by { assert t[..6][1] != "presto"[1]; }
    NotContainsUnique(t, "presto", 0, 0);
  }

  /** "Presto" in a transcript cancels the response in flight before the
      browser hears of the mode being generated. */
  lemma PrestoCancelsFirst(t: string, switch: string -> Option<seq<Send>>)
    requires t != "" && Contains(Lower(t), "presto")
    ensures UserTranscript(JStr(t), switch).sent[1..3] == [Up(ResponseCancel), Down(ModeGenerating(""))]
  {
  }

  /** A delta event sends something exactly when its delta is truthy; an
      empty or missing delta is dropped. */
  lemma EmptyDeltasDropped(e: Object, parse: string -> Option<Json>, switch: string -> Option<seq<Send>>)
    requires GetOr(e, "type", JStr("")) in {JStr(AudioDeltaEvent), JStr(TranscriptDeltaEvent)}
    ensures var s := RealtimeEvent(JObj(e), parse, switch);
      !s.fault && (s.sent == [] <==> !Truthy(GetOr(e, "delta", JStr(""))))
  {
  }

  /** A truthy delta reaches the browser unchanged: an audio delta as audio,
      a transcript delta as the assistant's words. */
  lemma DeltaForwarded(e: Object, parse: string -> Option<Json>, switch: string -> Option<seq<Send>>)
    requires Truthy(GetOr(e, "delta", JStr("")))
    ensures var d := GetOr(e, "delta", JStr(""));
      (GetOr(e, "type", JStr("")) == JStr(AudioDeltaEvent) ==>
         RealtimeEvent(JObj(e), parse, switch) == Step([Down(Audio(d))], false))
      && (GetOr(e, "type", JStr("")) == JStr(TranscriptDeltaEvent) ==>
         RealtimeEvent(JObj(e), parse, switch) == Step([Down(Transcript("assistant", d))], false))
  {
  }

  /** A service error is passed on with its message, "Unknown error" when it
      has none; an `error` field that is not an object ends the relay. */
  lemma ErrorForwarded(e: Object, parse: string -> Option<Json>, switch: string -> Option<seq<Send>>)
    requires GetOr(e, "type", JStr("")) == JStr("error")
    ensures var info := GetOr(e, "error", JObj(map[]));
      var s := RealtimeEvent(JObj(e), parse, switch);
      (info.JObj? ==> s == Step([Down(ErrorEvent(GetOr(info.fields, "message", JStr("Unknown error"))))], false))
      && (!info.JObj? ==> s == Step([], true))
  {
  }

  /** An error event without details still tells the browser. */
  lemma BareErrorForwarded(parse: string -> Option<Json>, switch: string -> Option<seq<Send>>)
    ensures RealtimeEvent(JObj(map["type" := JStr("error")]), parse, switch)
            == Step([Down(ErrorEvent(JStr("Unknown error")))], false)
  {
    ErrorForwarded(map["type" := JStr("error")], parse, switch);
  }

  /** A tool call with readable arguments is answered twice with the same
      result: to the browser and, under the same call id, to the service,
      which is then asked to continue. */
  lemma ToolCallAnswered(e: Object, parse: string -> Option<Json>, switch: string -> Option<seq<Send>>,
                         args: string, a: Object)
    requires GetOr(e, "type", JStr("")) == JStr(ToolCallEvent)
    requires GetOr(e, "arguments", JStr("{}")) == JStr(args) && parse(args) == Some(JObj(a))
    ensures var result := ExecuteTool(Show(GetOr(e, "name", JStr(""))), a);
      RealtimeEvent(JObj(e), parse, switch) == Step(
        [Down(ToolResult(GetOr(e, "name", JStr("")), result)),
         Up(FunctionCallOutput(GetOr(e, "call_id", JStr("")), result)),
         Up(ResponseCreate)], false)
  {
  }

  /** Unparseable tool arguments send nothing and the relay goes on. */
  lemma UnparseableArgumentsIgnored(e: Object, parse: string -> Option<Json>, switch: string -> Option<seq<Send>>,
                                    args: string)
    requires GetOr(e, "type", JStr("")) == JStr(ToolCallEvent)
    requires GetOr(e, "arguments", JStr("{}")) == JStr(args) && parse(args).None?
    ensures RealtimeEvent(JObj(e), parse, switch) == Step([], false)
  {
  }

  // ---------------------------------------------------------------------
  // The session

  /** Which relay direction completed first; the other is cancelled. */
  datatype Side = BrowserSide | RealtimeSide

  /** What the session sent: the opening pair, what each relay direction
      sent (their interleaving is not modelled), and the closing messages. */
  datatype SessionLog = SessionLog(opening: seq<Send>, fromBrowser: seq<Send>, fromRealtime: seq<Send>,
                                   closing: seq<Send>)

  const Disconnected := Down(Status("disconnected"))

  /** handle_voice_session. `connected` says whether obtaining the token and
      opening the realtime connection succeeded; `mode` and `persona` are
      the current mode and its persona; `browserFrames` and `realtimeFrames`
      are what each direction consumed before the session ended; `first` is
      the direction that completed. */
  function Session(connected: bool, mode: Mode, persona: Object, money: Json -> Option<string>,
                   browserFrames: seq<string>, realtimeFrames: seq<string>, first: Side,
                   parse: string -> Option<Json>, effects: string -> seq<Send>): (log: SessionLog)
    ensures |log.closing| >= 1 && log.closing[|log.closing| - 1] == Disconnected
    ensures log.opening != [] <==> connected && Chat.BuildSystemPrompt(mode, persona, money).Some?
    ensures log.opening != [] ==>
      log.opening == [Up(SessionUpdate(Chat.BuildSystemPrompt(mode, persona, money).value,
                                       BuildRealtimeTools(ToolDefinitions))),
                      Down(Status("connected"))]
    ensures log.opening == [] ==> log == SessionLog([], [], [], [Down(SessionError), Disconnected])
    ensures log.closing == [Down(SessionError), Disconnected] || log.closing == [Disconnected]
    ensures log.opening != [] ==>
      log.fromBrowser == BrowserToRealtime(browserFrames, parse, JBool(false)).sent
      && log.fromRealtime == RealtimeToBrowser(realtimeFrames, parse, effects).sent
    ensures log.opening != [] ==>
      (log.closing[0] == Down(SessionError) <==>
        (first == BrowserSide && BrowserToRealtime(browserFrames, parse, JBool(false)).end == Faulted)
        || (first == RealtimeSide && RealtimeToBrowser(realtimeFrames, parse, effects).end == Faulted))
  {
    var prompt := Chat.BuildSystemPrompt(mode, persona, money);
    if !connected || prompt.None? then SessionLog([], [], [], [Down(SessionError), Disconnected])
    else
      var opening := [Up(SessionUpdate(prompt.value, BuildRealtimeTools(ToolDefinitions))), Down(Status("connected"))];
      var b := BrowserToRealtime(browserFrames, parse, JBool(false));
      var rt := RealtimeToBrowser(realtimeFrames, parse, effects);
      var failed := if first == BrowserSide then b.end == Faulted else rt.end == Faulted;
      assert failed <==> (first == BrowserSide && b.end == Faulted) || (first == RealtimeSide && rt.end == Faulted);
      var closing := if failed then [Down(SessionError), Disconnected] else [Disconnected];
      SessionLog(opening, b.sent, rt.sent, closing)
  }

  /** A browser that asks to stop ends the session cleanly. */
  lemma StopEndsCleanly(mode: Mode, persona: Object, money: Json -> Option<string>, f: string,
                        realtimeFrames: seq<string>, parse: string -> Option<Json>, effects: string -> seq<Send>,
                        m: Object)
    requires Chat.BuildSystemPrompt(mode, persona, money).Some?
    requires parse(f) == Some(JObj(m)) && Get(m, "type") == Some(JStr("stop"))
    ensures Session(true, mode, persona, money, [f], realtimeFrames, BrowserSide, parse, effects).closing == [Disconnected]
  {
  }
}
