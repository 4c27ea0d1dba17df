/** The application shell (App.tsx): the vehicle list, the selected vehicle, every
    vehicle's chat history, live mode and the text chat, driving one live session. Each
    handler is one method; React's state setters become field assignments, and the
    effect that watches the selected vehicle runs at the end of the handler that changed
    it. The text chat's request is split at its one await: SubmitText runs up to the
    request, ReceiveReply runs when the answer (or a failure) comes back. */
module AppShell {
  import opened Types
  import opened ChatHistory
  import L = LiveSession

  /** `vehicles.find(v => v.id === id)`: the first vehicle with that id, if any. */
  function FindVehicle(vs: seq<Vehicle>, id: Option<string>): (r: Option<Vehicle>)
    ensures r.Some? ==> id == Some(r.value.id) && r.value in vs
    ensures r.None? <==> forall k :: 0 <= k < |vs| ==> id != Some(vs[k].id)
    ensures r.Some? ==> exists k :: (0 <= k < |vs| && vs[k] == r.value
      && forall j :: 0 <= j < k ==> id != Some(vs[j].id))
    decreases |vs|
  {
    if vs == [] then None
    else if id == Some(vs[0].id) then Some(vs[0])
    else
      var r := FindVehicle(vs[1..], id);
      assert forall k :: 1 <= k < |vs| ==> vs[1..][k - 1] == vs[k];
      if r.Some? then
        assert exists k :: (0 <= k < |vs| - 1 && vs[1..][k] == r.value
          && forall j :: 0 <= j < k ==> id != Some(vs[1..][j].id));
        var k :| 0 <= k < |vs| - 1 && vs[1..][k] == r.value && forall j :: 0 <= j < k ==> id != Some(vs[1..][j].id);
        assert vs[k + 1] == r.value && forall j :: 0 <= j < k + 1 ==> id != Some(vs[j].id);
        r
      else r
  }

  /** What the text chat hands to the model: the vehicle it is about, that vehicle's
      context as system instruction, the earlier turns and the new message. */
  datatype ChatRequest = ChatRequest(vehicleId: string, instruction: string, history: seq<Turn>, message: string)

  class App {
    var vehicles: seq<Vehicle>
    var currentVehicleId: Option<string>
    var sessions: ChatSessionMap
    var isLiveMode: bool
    var inputText: string
    var isGenerating: bool
    /** The selection as the live session's callbacks see it: onTranscript and onToolCall
        are closures of the render in which connect() ran, so they keep the vehicle that
        was selected then. */
    var vehicleAtConnect: Option<string>
    /** The live session the shell drives. */
    const live: L.LiveSession

    /** The session is valid, and the model is silent outside live mode: audio arrives
        only over a connection that entering live mode opened, and every way out of live
        mode disconnects. */
    ghost predicate Valid()
      reads this`isLiveMode, live
    {
      live.Valid() && (!isLiveMode ==> !live.isAiSpeaking)
    }

    constructor (apiKey: string)
      ensures Valid() && fresh(live) && live.apiKey == apiKey && live.hasToolHandler
      ensures vehicles == [] && currentVehicleId.None? && sessions == map[]
      ensures !isLiveMode && inputText == "" && !isGenerating && vehicleAtConnect.None?
    {
      vehicles := [];
      currentVehicleId := None;
      sessions := map[];
      isLiveMode := false;
      inputText := "";
      isGenerating := false;
      vehicleAtConnect := None;
      live := new L.LiveSession(apiKey, true);
    }

    /** `currentVehicleId ? (sessions[currentVehicleId] || []) : []` */
    function CurrentHistory(): (h: seq<ChatMessage>)
      reads this`currentVehicleId, this`sessions
      ensures !Selected(currentVehicleId) ==> h == []
      ensures Selected(currentVehicleId) && currentVehicleId.value in sessions ==> h == sessions[currentVehicleId.value]
      ensures Selected(currentVehicleId) && currentVehicleId.value !in sessions ==> h == []
    {
      if Selected(currentVehicleId) then HistoryOf(sessions, currentVehicleId.value) else []
    }

    /** The effect on the selected vehicle: when it differs from `previous` and the live
        session is connected or connecting, disconnect and leave live mode. */
    method SwitchEffect(previous: Option<string>)
      requires Valid()
      modifies this`isLiveMode, live`session, live`stream, live`processor, live`inputContext, live`outputContext,
        live`released, live`stopped, live`sources, live`state, live`isAiSpeaking, live`volume
      ensures Valid()
      ensures previous != currentVehicleId && old(live.state) in {Connected, Connecting} ==>
        !isLiveMode && live.state == Disconnected && live.Held() == [] && live.sources == []
        && !live.isAiSpeaking && live.volume == 0.0
        && live.released == old(live.released) + old(live.Held())
        && live.stopped == old(live.stopped) + old(live.sources)
      ensures !(previous != currentVehicleId && old(live.state) in {Connected, Connecting}) ==>
        isLiveMode == old(isLiveMode) && unchanged(live)
    {
      if previous != currentVehicleId && (live.state == Connected || live.state == Connecting) {
        live.Disconnect();
        isLiveMode := false;
      }
    }

    /** handleVehicleCreated: the vehicle goes to the front of the list and becomes the
        selected one, and its history becomes the single init message. */
    method HandleVehicleCreated(v: Vehicle, now: int)
      requires Valid()
      modifies this`vehicles, this`currentVehicleId, this`sessions, this`isLiveMode
      modifies live`session, live`stream, live`processor, live`inputContext, live`outputContext,
        live`released, live`stopped, live`sources, live`state, live`isAiSpeaking, live`volume
      ensures Valid()
      ensures vehicles == [v] + old(vehicles) && currentVehicleId == Some(v.id)
      ensures sessions == old(sessions)[v.id := [InitMessage(v, now)]]
      ensures old(currentVehicleId) != Some(v.id) && old(live.state) in {Connected, Connecting} ==>
        !isLiveMode && live.state == Disconnected && live.Held() == [] && live.sources == []
        && !live.isAiSpeaking && live.volume == 0.0
        && live.released == old(live.released) + old(live.Held())
        && live.stopped == old(live.stopped) + old(live.sources)
      ensures !(old(currentVehicleId) != Some(v.id) && old(live.state) in {Connected, Connecting}) ==>
        isLiveMode == old(isLiveMode) && unchanged(live)
    {
      var previous := currentVehicleId;
      AddVehicle(v, now);
      SwitchEffect(previous);
    }

    /** The three state updates of handleVehicleCreated. */
    method AddVehicle(v: Vehicle, now: int)
      modifies this`vehicles, this`currentVehicleId, this`sessions
      ensures vehicles == [v] + old(vehicles) && currentVehicleId == Some(v.id)
      ensures sessions == old(sessions)[v.id := [InitMessage(v, now)]]
    {
      vehicles := [v] + vehicles;
      currentVehicleId := Some(v.id);
      sessions := sessions[v.id := [InitMessage(v, now)]];
    }

    /** handleSelectVehicle, followed by the switch effect. */
    method HandleSelectVehicle(id: string)
      requires Valid()
      modifies this`currentVehicleId, this`isLiveMode
      modifies live`session, live`stream, live`processor, live`inputContext, live`outputContext,
        live`released, live`stopped, live`sources, live`state, live`isAiSpeaking, live`volume
      ensures Valid()
      ensures currentVehicleId == Some(id)
      ensures old(currentVehicleId) != Some(id) && old(live.state) in {Connected, Connecting} ==>
        !isLiveMode && live.state == Disconnected && live.Held() == [] && live.sources == []
        && !live.isAiSpeaking && live.volume == 0.0
        && live.released == old(live.released) + old(live.Held())
        && live.stopped == old(live.stopped) + old(live.sources)
      ensures !(old(currentVehicleId) != Some(id) && old(live.state) in {Connected, Connecting}) ==>
        isLiveMode == old(isLiveMode) && unchanged(live)
    {
      var previous := currentVehicleId;
      currentVehicleId := Some(id);
      SwitchEffect(previous);
    }

    /** handleNewSession: no vehicle is selected, followed by the switch effect. */
    method HandleNewSession()
      requires Valid()
      modifies this`currentVehicleId, this`isLiveMode
      modifies live`session, live`stream, live`processor, live`inputContext, live`outputContext,
        live`released, live`stopped, live`sources, live`state, live`isAiSpeaking, live`volume
      ensures Valid()
      ensures currentVehicleId.None?
      ensures old(currentVehicleId).Some? && old(live.state) in {Connected, Connecting} ==>
        !isLiveMode && live.state == Disconnected && live.Held() == [] && live.sources == []
        && !live.isAiSpeaking && live.volume == 0.0
        && live.released == old(live.released) + old(live.Held())
        && live.stopped == old(live.stopped) + old(live.sources)
      ensures !(old(currentVehicleId).Some? && old(live.state) in {Connected, Connecting}) ==>
        isLiveMode == old(isLiveMode) && unchanged(live)
    {
      var previous := currentVehicleId;
      currentVehicleId := None;
      SwitchEffect(previous);
    }

    /** toggleLiveMode: leaving live mode disconnects; entering it connects. Live mode
        stays on when the connection fails: the flag and the connection state are
        separate. A connection opened here starts while the model is silent. */
    method ToggleLiveMode(clock: nat, micGranted: bool)
      requires Valid()
      modifies this`isLiveMode, live`session, live`stream, live`processor, live`inputContext, live`outputContext,
        live`released, live`stopped, live`sources, live`state, live`isAiSpeaking, live`volume
      modifies live`nextHandle, live`nextStartTime, live`captureArmed, live`speakingAtConnect
      modifies this`vehicleAtConnect
      ensures Valid()
      ensures vehicleAtConnect == if old(isLiveMode) then old(vehicleAtConnect) else currentVehicleId
      ensures old(isLiveMode) ==>
        !isLiveMode && live.state == Disconnected && live.Held() == [] && live.sources == []
        && !live.isAiSpeaking && live.volume == 0.0
        && live.released == old(live.released) + old(live.Held())
        && live.stopped == old(live.stopped) + old(live.sources)
        && live.nextHandle == old(live.nextHandle) && live.nextStartTime == old(live.nextStartTime)
        && live.captureArmed == old(live.captureArmed) && live.speakingAtConnect == old(live.speakingAtConnect)
      ensures !old(isLiveMode) ==> isLiveMode && !live.speakingAtConnect
      ensures !old(isLiveMode) && live.apiKey == "" ==>
        live.state == Error
        && live.session == old(live.session) && live.stream == old(live.stream) && live.processor == old(live.processor)
        && live.inputContext == old(live.inputContext) && live.outputContext == old(live.outputContext)
        && live.released == old(live.released) && live.stopped == old(live.stopped)
        && live.nextHandle == old(live.nextHandle) && live.sources == old(live.sources)
        && live.isAiSpeaking == old(live.isAiSpeaking) && live.volume == old(live.volume)
        && live.nextStartTime == old(live.nextStartTime) && live.captureArmed == old(live.captureArmed)
      ensures !old(isLiveMode) && live.apiKey != "" && !micGranted ==>
        live.state == Error && live.Held() == [] && live.sources == [] && !live.isAiSpeaking && live.volume == 0.0
        && live.released == old(live.released)
             + (L.OptList(old(live.session)) + L.OptList(old(live.stream)) + L.OptList(old(live.processor)))
             + [old(live.nextHandle) + 1, old(live.nextHandle)]
        && live.stopped == old(live.stopped) + old(live.sources)
        && live.nextHandle == old(live.nextHandle) + 2 && live.nextStartTime == clock
        && live.captureArmed == old(live.captureArmed)
      ensures !old(isLiveMode) && live.apiKey != "" && micGranted ==>
        live.state == Connecting && live.nextStartTime == clock && !live.captureArmed
        && live.outputContext == Some(old(live.nextHandle)) && live.inputContext == Some(old(live.nextHandle) + 1)
        && live.stream == Some(old(live.nextHandle) + 2) && live.processor == Some(old(live.nextHandle) + 3)
        && live.session == old(live.session) && live.released == old(live.released) && live.stopped == old(live.stopped)
        && live.nextHandle == old(live.nextHandle) + 4
        && live.sources == old(live.sources) && live.isAiSpeaking == old(live.isAiSpeaking) && live.volume == old(live.volume)
    {
      if isLiveMode {
        live.Disconnect();
        isLiveMode := false;
      } else {
        isLiveMode := true;
        vehicleAtConnect := currentVehicleId;
        live.Connect(clock, micGranted);
      }
    }

    /** The onTranscript callback the live session holds: it writes to the vehicle that
        was selected when connect() ran, whatever is selected now. */
    method OnTranscript(text: string, sender: Role, now: int, freshId: string)
      requires sender != System
      modifies this`sessions
      ensures sessions == ChatHistory.OnTranscript(old(sessions), vehicleAtConnect, text, sender, now, freshId)
    {
      sessions := ChatHistory.OnTranscript(sessions, vehicleAtConnect, text, sender, now, freshId);
    }

    /** The onToolCall callback the live session holds: a guide goes to the vehicle that
        was selected when connect() ran. */
    method OnToolCall(call: FunctionCall, now: int, msgId: string, stepIds: seq<string>) returns (result: ToolResult)
      requires |stepIds| == StepCount(call.args.steps)
      modifies this`sessions
      ensures (sessions, result) == VoiceToolCall(old(sessions), vehicleAtConnect, call, now, msgId, stepIds)
    {
      var r := VoiceToolCall(sessions, vehicleAtConnect, call, now, msgId, stepIds);
      sessions := r.0;
      result := r.1;
    }

    /** handleSendText up to its await. Nothing happens when the trimmed input is empty,
        no vehicle is selected, or an answer is pending. Otherwise the input is cleared,
        an answer is pending, the user's message is appended, and the request carries the
        history as it was before that message, without system messages. */
    method SubmitText(now: int, msgId: string) returns (request: Option<ChatRequest>)
      modifies this`inputText, this`isGenerating, this`sessions
      ensures Trim(old(inputText)) == "" || FindVehicle(vehicles, currentVehicleId).None? || old(isGenerating) ==>
        request.None? && inputText == old(inputText) && isGenerating == old(isGenerating) && sessions == old(sessions)
      ensures !(Trim(old(inputText)) == "" || FindVehicle(vehicles, currentVehicleId).None? || old(isGenerating)) ==>
        var v := FindVehicle(vehicles, currentVehicleId).value;
        var text := Trim(old(inputText));
        && request == Some(ChatRequest(v.id, v.contextString, HistoryForModel(old(CurrentHistory())), text))
        && inputText == "" && isGenerating
        && sessions == UpdateHistory(old(sessions), v.id, ChatMessage(msgId, User, text, now, None))
    {
      var vehicle := FindVehicle(vehicles, currentVehicleId);
      var text := Trim(inputText);
      if text == "" || vehicle.None? || isGenerating {
        return None;
      }
      var history := HistoryForModel(CurrentHistory());
      inputText := "";
      isGenerating := true;
      sessions := UpdateHistory(sessions, vehicle.value.id, ChatMessage(msgId, User, text, now, None));
      request := Some(ChatRequest(vehicle.value.id, vehicle.value.contextString, history, text));
    }

    /** handleSendText after its await: the answer's message goes to the vehicle the
        request was about, and no answer is pending any more. */
    method ReceiveReply(request: ChatRequest, reply: ChatReply, now: int, msgId: string, stepIds: seq<string>)
      requires |stepIds| == ReplyStepCount(reply)
      modifies this`sessions, this`isGenerating
      ensures sessions == UpdateHistory(old(sessions), request.vehicleId, ReplyMessage(reply, now, msgId, stepIds))
      ensures !isGenerating
    {
      sessions := UpdateHistory(sessions, request.vehicleId, ReplyMessage(reply, now, msgId, stepIds));
      isGenerating := false;
    }
  }

  /** A text exchange from a clean start: a submitted question and its answer leave the
      vehicle's history with two more messages, the question and then the answer, and
      nothing pending. */
  method AskAndAnswer(app: App, reply: ChatReply, t1: int, t2: int, id1: string, id2: string, stepIds: seq<string>)
    returns (request: Option<ChatRequest>)
    requires |stepIds| == ReplyStepCount(reply)
    requires !app.isGenerating && Trim(app.inputText) != ""
    requires FindVehicle(app.vehicles, app.currentVehicleId).Some?
    modifies app`inputText, app`isGenerating, app`sessions
    ensures request.Some? && !app.isGenerating && app.inputText == ""
    ensures request.value.vehicleId in app.sessions
    ensures var id := request.value.vehicleId;
            var before := HistoryOf(old(app.sessions), id);
            && app.sessions[id] == before + [ChatMessage(id1, User, Trim(old(app.inputText)), t1, None),
                                             ReplyMessage(reply, t2, id2, stepIds)]
  {
    ghost var question := ChatMessage(id1, User, Trim(app.inputText), t1, None);
    ghost var id := FindVehicle(app.vehicles, app.currentVehicleId).value.id;
    ghost var before := HistoryOf(app.sessions, id);
    request := app.SubmitText(t1, id1);
    assert request.value.vehicleId == id;
    app.ReceiveReply(request.value, reply, t2, id2, stepIds);
    TwoMessages(old(app.sessions), id, question, ReplyMessage(reply, t2, id2, stepIds));
  }

  /** Two messages appended to one vehicle's history follow its old history in order. */
  lemma TwoMessages(sessions: ChatSessionMap, id: string, m1: ChatMessage, m2: ChatMessage)
    ensures UpdateHistory(UpdateHistory(sessions, id, m1), id, m2)[id] == HistoryOf(sessions, id) + [m1, m2]
  {
    var h := HistoryOf(sessions, id);
    assert HistoryOf(UpdateHistory(sessions, id, m1), id) == h + [m1];
    assert (h + [m1]) + [m2] == h + [m1, m2];
  }
}
