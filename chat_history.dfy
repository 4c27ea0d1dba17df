/** The pure history updaters of App.tsx: appending to one vehicle's history, merging
    streamed transcript fragments, building repair-guide messages from tool calls, the
    history handed to the text model, and the seed message of a new vehicle. The clock
    (Date.now()) and the id generator (crypto.randomUUID()) are parameters. */
module ChatHistory {
  import opened Types

  /** Fragments from the same speaker closer together than this many milliseconds are
      merged into one message. */
  const CoalesceWindow: int := 5000

  const Confirmation: string := "Checklist created and displayed to user."
  const ToolFailure: string := "Failed to create checklist."
  const ConnectError: string := "Error: Could not connect to Revo database. Please try again."

  /** `prev[id] || []`: a vehicle without an entry has an empty history. */
  function HistoryOf(sessions: ChatSessionMap, id: string): (h: seq<ChatMessage>)
    ensures id in sessions ==> h == sessions[id]
    ensures id !in sessions ==> h == []
  {
    if id in sessions then sessions[id] else []
  }

  /** A current vehicle id is selected when it is neither null nor the (falsy) empty string. */
  predicate Selected(current: Option<string>)
  {
    current.Some? && current.value != ""
  }

  /** updateHistory: one message appended at the end of one vehicle's history. */
  function UpdateHistory(sessions: ChatSessionMap, id: string, msg: ChatMessage): (r: ChatSessionMap)
    ensures r.Keys == sessions.Keys + {id}
    ensures |r[id]| == |HistoryOf(sessions, id)| + 1
    ensures r[id] == HistoryOf(sessions, id) + [msg]
    ensures r[id][..|r[id]| - 1] == HistoryOf(sessions, id) && r[id][|r[id]| - 1] == msg
    ensures forall k :: k in sessions && k != id ==> r[k] == sessions[k]
  {
    var h := HistoryOf(sessions, id) + [msg];
    assert h[..|h| - 1] == HistoryOf(sessions, id);
    sessions[id := h]
  }

  // ---- Transcript coalescing ----

  /** The last message absorbs a new fragment: same speaker, less than the window old,
      and not carrying a repair guide. */
  predicate Coalesces(last: ChatMessage, sender: Role, now: int)
  {
    last.role == sender && now - last.timestamp < CoalesceWindow && last.repairGuide.None?
  }

  /** One history after a transcript fragment arrives at time `now`; `freshId` names the
      message created when the fragment is not merged. */
  function AddTranscript(h: seq<ChatMessage>, text: string, sender: Role, now: int, freshId: string): (r: seq<ChatMessage>)
    ensures |r| == |h| <==> (h != [] && Coalesces(h[|h| - 1], sender, now))
    ensures |r| == |h| || |r| == |h| + 1
    ensures h != [] ==> r[..|h| - 1] == h[..|h| - 1]
    ensures r[|r| - 1].role == sender && r[|r| - 1].timestamp == now && r[|r| - 1].repairGuide.None?
    ensures |r| == |h| ==> r[|r| - 1] == h[|h| - 1].(text := h[|h| - 1].text + text, timestamp := now)
    ensures |r| == |h| + 1 ==> r == h + [ChatMessage(freshId, sender, text, now, None)]
  {
    if h != [] && Coalesces(h[|h| - 1], sender, now) then
      var last := h[|h| - 1];
      h[..|h| - 1] + [last.(text := last.text + text, timestamp := now)]
    else
      h + [ChatMessage(freshId, sender, text, now, None)]
  }

  /** All the text of a history, message after message. */
  function AllText(h: seq<ChatMessage>): string
    decreases |h|
  {
    if h == [] then "" else AllText(h[..|h| - 1]) + h[|h| - 1].text
  }

  /** Whether merged or appended, a fragment's words land at the end of the history's text
      and nothing else changes in it. */
  lemma TranscriptKeepsText(h: seq<ChatMessage>, text: string, sender: Role, now: int, freshId: string)
    ensures AllText(AddTranscript(h, text, sender, now, freshId)) == AllText(h) + text
  {
  }

  /** Two fragments in a row: the second merges into the first's message exactly when it
      comes from the same speaker less than the window later, and then the message ends
      with both fragments. */
  lemma TwoFragments(h: seq<ChatMessage>, t1: string, t2: string, s1: Role, s2: Role, n1: int, n2: int, id1: string, id2: string)
    ensures var r1 := AddTranscript(h, t1, s1, n1, id1);
            var r2 := AddTranscript(r1, t2, s2, n2, id2);
            && (|r2| == |r1| <==> (s2 == s1 && n2 - n1 < CoalesceWindow))
            && (|r2| == |r1| ==> r2[|r2| - 1].text == r1[|r1| - 1].text + t2)
            && (|r1| == |h| + 1 && |r2| == |r1| ==> r2[|r2| - 1].text == t1 + t2)
  {
  }

  /** The onTranscript updater: merge or append in the current vehicle's history; without
      a selected vehicle nothing changes. */
  function OnTranscript(sessions: ChatSessionMap, current: Option<string>, text: string, sender: Role, now: int, freshId: string): (r: ChatSessionMap)
    requires sender != System
    ensures !Selected(current) ==> r == sessions
    ensures Selected(current) ==>
      r.Keys == sessions.Keys + {current.value}
      && r[current.value] == AddTranscript(HistoryOf(sessions, current.value), text, sender, now, freshId)
    ensures forall k :: k in sessions && !(Selected(current) && k == current.value) ==> k in r && r[k] == sessions[k]
  {
    if !Selected(current) then sessions
    else
      var id := current.value;
      sessions[id := AddTranscript(HistoryOf(sessions, id), text, sender, now, freshId)]
  }

  // ---- Repair guides from tool calls ----

  /** How many step texts the steps argument carries. */
  function StepCount(steps: StepsArg): nat
  {
    if steps.StepList? then |steps.texts| else 0
  }

  /** The step list of a guide: one unchecked step per text, in order, with fresh ids. */
  function MakeSteps(texts: seq<string>, ids: seq<string>): (r: seq<RepairStep>)
    requires |ids| == |texts|
    ensures |r| == |texts|
    ensures forall i :: 0 <= i < |r| ==> r[i] == RepairStep(ids[i], texts[i], false)
    decreases |texts|
  {
    if texts == [] then []
    else MakeSteps(texts[..|texts| - 1], ids[..|ids| - 1]) + [RepairStep(ids[|ids| - 1], texts[|texts| - 1], false)]
  }

  /** The guide built from well-formed arguments: tools default to none and the time to
      'Unknown', so a guide's time is never blank. */
  function BuildGuide(args: GuideArgs, stepIds: seq<string>): (g: RepairGuide)
    requires !args.steps.NotAList? && |stepIds| == StepCount(args.steps)
    ensures g.title == args.title
    ensures |g.steps| == StepCount(args.steps)
    ensures forall i :: 0 <= i < |g.steps| ==>
      g.steps[i].text == args.steps.texts[i] && g.steps[i].id == stepIds[i] && !g.steps[i].isCompleted
    ensures args.tools.None? ==> g.tools == []
    ensures args.tools.Some? ==> g.tools == args.tools.value
    ensures g.estimatedTime != ""
    ensures args.estimatedTime.None? || args.estimatedTime.value == "" ==> g.estimatedTime == "Unknown"
    ensures args.estimatedTime.Some? && args.estimatedTime.value != "" ==> g.estimatedTime == args.estimatedTime.value
  {
    var texts := if args.steps.StepList? then args.steps.texts else [];
    var tools := if args.tools.Some? then args.tools.value else [];
    var time := if args.estimatedTime.Some? && args.estimatedTime.value != "" then args.estimatedTime.value else "Unknown";
    RepairGuide(args.title, tools, MakeSteps(texts, stepIds), time)
  }

  /** The onToolCall handler of voice mode. For a create_repair_guide call while a vehicle
      is selected it appends a model message carrying the guide and confirms; if the steps
      argument cannot be mapped it reports failure and appends nothing; any other call
      gets null. */
  function VoiceToolCall(sessions: ChatSessionMap, current: Option<string>, call: FunctionCall, now: int, msgId: string, stepIds: seq<string>): (r: (ChatSessionMap, ToolResult))
    requires |stepIds| == StepCount(call.args.steps)
    ensures !(call.name == RepairGuideToolName && Selected(current)) ==> r == (sessions, Null)
    ensures call.name == RepairGuideToolName && Selected(current) && call.args.steps.NotAList? ==>
      r == (sessions, Text(ToolFailure))
    ensures call.name == RepairGuideToolName && Selected(current) && !call.args.steps.NotAList? ==>
      r.1 == Text(Confirmation)
      && r.0 == UpdateHistory(sessions, current.value,
                  ChatMessage(msgId, Model, "I've prepared a repair checklist for: " + call.args.title, now,
                              Some(BuildGuide(call.args, stepIds))))
  {
    if call.name == RepairGuideToolName && Selected(current) then
      if call.args.steps.NotAList? then (sessions, Text(ToolFailure))
      else
        var msg := ChatMessage(msgId, Model, "I've prepared a repair checklist for: " + call.args.title, now,
                               Some(BuildGuide(call.args, stepIds)));
        (UpdateHistory(sessions, current.value, msg), Text(Confirmation))
    else (sessions, Null)
  }

  /** What a voice tool call does to the histories: the handler's result is truthy
      exactly for a create_repair_guide call while a vehicle is selected; a successful
      call adds one model message, carrying a guide with every step unchecked, to the
      current vehicle only. */
  lemma VoiceToolCallEffect(sessions: ChatSessionMap, current: Option<string>, call: FunctionCall, now: int, msgId: string, stepIds: seq<string>)
    requires |stepIds| == StepCount(call.args.steps)
    ensures var r := VoiceToolCall(sessions, current, call, now, msgId, stepIds);
            && (Truthy(r.1) <==> call.name == RepairGuideToolName && Selected(current))
            && (r.1 == Text(Confirmation) ==>
                  var id := current.value;
                  && r.0.Keys == sessions.Keys + {id}
                  && |r.0[id]| == |HistoryOf(sessions, id)| + 1
                  && r.0[id][..|HistoryOf(sessions, id)|] == HistoryOf(sessions, id)
                  && r.0[id][|HistoryOf(sessions, id)|].role == Model
                  && r.0[id][|HistoryOf(sessions, id)|].repairGuide.Some?
                  && |r.0[id][|HistoryOf(sessions, id)|].repairGuide.value.steps| == StepCount(call.args.steps)
                  && (forall i :: 0 <= i < StepCount(call.args.steps) ==>
                        !r.0[id][|HistoryOf(sessions, id)|].repairGuide.value.steps[i].isCompleted)
                  && (forall k :: k in sessions && k != id ==> r.0[k] == sessions[k]))
            && (r.1 != Text(Confirmation) ==> r.0 == sessions)
  {
  }

  // ---- Text chat ----

  /** One turn of the history handed to the text model. */
  datatype Turn = Turn(role: Role, text: string)

  /** The history handed to the text model: system messages dropped, the rest in order. */
  function HistoryForModel(h: seq<ChatMessage>): (r: seq<Turn>)
    ensures |r| <= |h|
    ensures forall k :: 0 <= k < |r| ==> r[k].role != System
    decreases |h|
  {
    if h == [] then []
    else
      var last := h[|h| - 1];
      HistoryForModel(h[..|h| - 1]) + (if last.role == System then [] else [Turn(last.role, last.text)])
  }

  /** The filter works message by message: the history of two parts is the two parts'
      histories one after the other, so order is kept. */
  lemma {:induction false} HistoryForModelAppend(a: seq<ChatMessage>, b: seq<ChatMessage>)
    ensures HistoryForModel(a + b) == HistoryForModel(a) + HistoryForModel(b)
    decreases |b|
  {
    if b == [] {
      assert a + b == a;
    } else {
      var n := |b| - 1;
      HistoryForModelAppend(a, b[..n]);
      assert (a + b)[..|a + b| - 1] == a + b[..n];
    }
  }

  /** A turn is handed to the model exactly when some non-system message carries it. */
  lemma {:induction false} HistoryForModelMembers(h: seq<ChatMessage>, t: Turn)
    ensures t in HistoryForModel(h) <==>
      exists k :: 0 <= k < |h| && h[k].role != System && t == Turn(h[k].role, h[k].text)
    decreases |h|
  {
    if h != [] {
      var n := |h| - 1;
      HistoryForModelMembers(h[..n], t);
      if t in HistoryForModel(h[..n]) {
        var k :| 0 <= k < n && h[..n][k].role != System && t == Turn(h[..n][k].role, h[..n][k].text);
        assert h[k] == h[..n][k];
      }
      if exists k :: 0 <= k < |h| && h[k].role != System && t == Turn(h[k].role, h[k].text) {
        var k :| 0 <= k < |h| && h[k].role != System && t == Turn(h[k].role, h[k].text);
        if k < n {
          assert h[..n][k] == h[k];
        }
      }
    }
  }

  /** How the text model's answer came back: its text (empty when it has none) and its
      function calls, or a failure anywhere in the request. */
  datatype ChatReply = Answer(text: string, calls: seq<FunctionCall>) | Failure

  /** Whether the answer asks for a repair guide: only its first function call counts. */
  predicate AsksForGuide(reply: ChatReply)
  {
    reply.Answer? && reply.calls != [] && reply.calls[0].name == RepairGuideToolName
  }

  /** The number of step ids the answer's message needs. */
  function ReplyStepCount(reply: ChatReply): nat
  {
    if AsksForGuide(reply) then StepCount(reply.calls[0].args.steps) else 0
  }

  /** The message appended when the text model's answer arrives: the guide message if
      the first call asks for a guide (its text is the answer's text or, when that is
      empty, a stock sentence naming the guide), the plain answer otherwise, and the
      system error message when the request failed or the guide could not be built. */
  function ReplyMessage(reply: ChatReply, now: int, msgId: string, stepIds: seq<string>): (m: ChatMessage)
    requires |stepIds| == ReplyStepCount(reply)
    ensures m.id == msgId && m.timestamp == now
    ensures reply.Failure? ==> m == ChatMessage(msgId, System, ConnectError, now, None)
    ensures AsksForGuide(reply) && reply.calls[0].args.steps.NotAList? ==>
      m == ChatMessage(msgId, System, ConnectError, now, None)
    ensures AsksForGuide(reply) && !reply.calls[0].args.steps.NotAList? ==>
      && m.role == Model
      && m.repairGuide == Some(BuildGuide(reply.calls[0].args, stepIds))
      && (reply.text != "" ==> m.text == reply.text)
      && (reply.text == "" ==> m.text == "Here is the repair guide for " + reply.calls[0].args.title + ":")
    ensures reply.Answer? && !AsksForGuide(reply) ==> m == ChatMessage(msgId, Model, reply.text, now, None)
  {
    match reply
    case Failure => ChatMessage(msgId, System, ConnectError, now, None)
    case Answer(text, calls) =>
      if AsksForGuide(reply) then
        var args := calls[0].args;
        if args.steps.NotAList? then ChatMessage(msgId, System, ConnectError, now, None)
        else
          var shown := if text != "" then text else "Here is the repair guide for " + args.title + ":";
          ChatMessage(msgId, Model, shown, now, Some(BuildGuide(args, stepIds)))
      else ChatMessage(msgId, Model, text, now, None)
  }

  /** Only the first function call of an answer matters: the calls after it never change
      the message. */
  lemma ReplyIgnoresLaterCalls(text: string, first: FunctionCall, rest1: seq<FunctionCall>, rest2: seq<FunctionCall>, now: int, msgId: string, stepIds: seq<string>)
    requires |stepIds| == ReplyStepCount(Answer(text, [first]))
    ensures ReplyStepCount(Answer(text, [first] + rest1)) == ReplyStepCount(Answer(text, [first] + rest2))
    ensures ReplyMessage(Answer(text, [first] + rest1), now, msgId, stepIds)
         == ReplyMessage(Answer(text, [first] + rest2), now, msgId, stepIds)
  {
  }

  // ---- Trimming ----

  /** The characters String.prototype.trim removes: ECMAScript white space and line
      terminators. */
  predicate IsSpace(c: char)
  {
    c in {'\U{9}', '\U{A}', '\U{B}', '\U{C}', '\U{D}', '\U{20}', '\U{A0}',
          '\U{1680}', '\U{2000}', '\U{2001}', '\U{2002}', '\U{2003}', '\U{2004}', '\U{2005}',
          '\U{2006}', '\U{2007}', '\U{2008}', '\U{2009}', '\U{200A}', '\U{2028}', '\U{2029}',
          '\U{202F}', '\U{205F}', '\U{3000}', '\U{FEFF}'}
  }

  /** `s` without its leading white space. */
  function TrimStart(s: string): (r: string)
    ensures |r| <= |s| && r == s[|s| - |r|..]
    ensures r != [] ==> !IsSpace(r[0])
    ensures forall i :: 0 <= i < |s| - |r| ==> IsSpace(s[i])
    decreases |s|
  {
    if s != [] && IsSpace(s[0]) then TrimStart(s[1..]) else s
  }

  /** `s` without its trailing white space. */
  function TrimEnd(s: string): (r: string)
    ensures |r| <= |s| && r == s[..|r|]
    ensures r != [] ==> !IsSpace(r[|r| - 1])
    ensures forall i :: |r| <= i < |s| ==> IsSpace(s[i])
    decreases |s|
  {
    if s != [] && IsSpace(s[|s| - 1]) then TrimEnd(s[..|s| - 1]) else s
  }

  /** `s` without its leading and trailing white space: the part between the first and
      the last character that is not white space, or nothing. */
  function Trim(s: string): (r: string)
    ensures var k := |s| - |TrimStart(s)|;
            && k + |r| <= |s| && r == s[k..k + |r|]
            && (forall i :: 0 <= i < k ==> IsSpace(s[i]))
            && (forall i :: k + |r| <= i < |s| ==> IsSpace(s[i]))
    ensures r != [] ==> !IsSpace(r[0]) && !IsSpace(r[|r| - 1])
  {
    TrimEnd(TrimStart(s))
  }

  /** A text trims to nothing exactly when it is all white space. */
  lemma TrimBlank(s: string)
    ensures Trim(s) == "" <==> forall i :: 0 <= i < |s| ==> IsSpace(s[i])
  {
  }

  // ---- A new vehicle ----

  /** What follows the vehicle's name in its first message: the modes on offer. */
  const InitBanner: string := ".\nTech Database Loaded.\n\nModes Available:\n1. Text Chat (Standard)\n2. Live Voice (Say \"Hey Revo\")\n3. TSB Database Search"

  /** The text of a new vehicle's first message. */
  function InitText(v: Vehicle): string
  {
    "Vehicle Connected: " + v.year + " " + v.make + " " + v.model
    + InitBanner
  }

  /** The system message a new vehicle's history starts with. */
  function InitMessage(v: Vehicle, now: int): (m: ChatMessage)
    ensures m.id == "init" && m.role == System && m.repairGuide.None? && m.timestamp == now
  {
    ChatMessage("init", System, InitText(v), now, None)
  }
}
