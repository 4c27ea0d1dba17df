/** The live voice session engine (hooks/useLiveSession.ts) as a sequential state machine.
    Every callback of the session (connect, open, each inbound message, a playback
    source's end, close, error) and disconnect is one method that runs to completion.
    Audio devices, the network and the decoder are outside: resources are numbered
    handles, playback sources are numbered ids, the clock and the decode result are
    parameters, and what the engine sends or stops is appended to logs. */
module LiveSession {
  import opened Types
  import opened Playback

  /** The fixed level shown while the model speaks (its output is not analysed). */
  const SpeakingVolume: real := 0.5

  /** No element occurs twice; stated on the last element so that appending is cheap. */
  ghost predicate NoDup<T>(s: seq<T>)
    decreases |s|
  {
    s == [] || (s[|s| - 1] !in s[..|s| - 1] && NoDup(s[..|s| - 1]))
  }

  lemma NoDupSnoc<T>(s: seq<T>, x: T)
    requires NoDup(s) && x !in s
    ensures NoDup(s + [x])
  {
  }

  lemma DropLastAppend<T>(a: seq<T>, b: seq<T>)
    requires b != []
    ensures (a + b)[..|a + b| - 1] == a + b[..|b| - 1] && (a + b)[|a + b| - 1] == b[|b| - 1]
  {
  }

  lemma AppendAssoc<T>(a: seq<T>, b: seq<T>, c: seq<T>)
    ensures (a + b) + c == a + (b + c)
  {
  }

  function OptList<T>(o: Option<T>): (r: seq<T>)
    ensures o.None? ==> r == []
    ensures o.Some? ==> r == [o.value]
  {
    if o.Some? then [o.value] else []
  }

  /** If `front` is the front of `s` with its entry x dropped, then `front` followed by the
      last element of `s` is `s` with that entry dropped. */
  lemma DropThenSnoc<T>(s: seq<T>, init: seq<T>, x: T, front: seq<T>)
    requires s != [] && init == s[..|s| - 1] && s[|s| - 1] != x
    requires exists i :: 0 <= i < |init| && init[i] == x && front == init[..i] + init[i + 1..]
    ensures exists i :: 0 <= i < |s| && s[i] == x && front + [s[|s| - 1]] == s[..i] + s[i + 1..]
  {
    var n := |s| - 1;
    var i :| 0 <= i < n && init[i] == x && front == init[..i] + init[i + 1..];
    assert init[..i] == s[..i];
    assert init[i + 1..] + [s[n]] == s[i + 1..];
    assert s[i] == x;
  }

  /** `s` without `x`: Set.prototype.delete on an insertion-ordered set. */
  function Remove(s: seq<nat>, x: nat): (r: seq<nat>)
    ensures forall y :: y in r <==> y in s && y != x
    ensures NoDup(s) ==> NoDup(r)
    ensures NoDup(s) && x in s ==> |r| == |s| - 1
    ensures x !in s ==> r == s
    ensures NoDup(s) && x in s ==> exists i :: 0 <= i < |s| && s[i] == x && r == s[..i] + s[i + 1..]
    decreases |s|
  {
    if s == [] then []
    else
      var n := |s| - 1;
      var front := Remove(s[..n], x);
      assert s == s[..n] + [s[n]];
      if s[n] == x then
        assert NoDup(s) ==> front == s[..n] + s[n + 1..];
        front
      else
        assert NoDup(s) ==> s[n] !in front;
        assert NoDup(s) ==> NoDup(front + [s[n]]) by {
          if NoDup(s) { NoDupSnoc(front, s[n]); }
        }
        assert NoDup(s) && x in s ==> exists i :: 0 <= i < |s| && s[i] == x && front + [s[n]] == s[..i] + s[i + 1..] by {
          if NoDup(s) && x in s {
            DropThenSnoc(s, s[..n], x, front);
          }
        }
        front + [s[n]]
  }

  /** A call of source.start(start) for the source with this id and buffer duration. */
  datatype Scheduled = Scheduled(source: nat, start: int, duration: nat)

  /** A sendToolResponse call: the id and name of the function call and its output. */
  datatype ToolResponse = ToolResponse(id: string, name: string, output: string)

  /** How the tool handler finished for one function call. */
  datatype HandlerOutcome = Returned(result: ToolResult) | Threw

  predicate Answered(outcome: HandlerOutcome)
  {
    outcome.Returned? && Truthy(outcome.result)
  }

  /** What one function call sends back: a response tagged with the call's id and name
      when the handler returned a truthy result, nothing otherwise. */
  function Reply(call: FunctionCall, outcome: HandlerOutcome): (r: seq<ToolResponse>)
    ensures |r| <= 1
    ensures |r| == 1 <==> Answered(outcome)
    ensures |r| == 1 ==> r[0].id == call.id && r[0].name == call.name && r[0].output == outcome.result.text
  {
    if Answered(outcome) then [ToolResponse(call.id, call.name, outcome.result.text)] else []
  }

  /** What a batch of function calls sends back, calls handled in order. */
  function Responses(calls: seq<FunctionCall>, outcomes: seq<HandlerOutcome>): (r: seq<ToolResponse>)
    requires |calls| == |outcomes|
    ensures |r| <= |calls|
    decreases |calls|
  {
    if calls == [] then []
    else Responses(calls[..|calls| - 1], outcomes[..|calls| - 1]) + Reply(calls[|calls| - 1], outcomes[|calls| - 1])
  }

  /** Handling a batch is handling its two halves one after the other: a call whose
      handler throws or returns nothing does not stop the calls after it. */
  lemma {:induction false} ResponsesAppend(c1: seq<FunctionCall>, o1: seq<HandlerOutcome>, c2: seq<FunctionCall>, o2: seq<HandlerOutcome>)
    requires |c1| == |o1| && |c2| == |o2|
    ensures Responses(c1 + c2, o1 + o2) == Responses(c1, o1) + Responses(c2, o2)
    decreases |c2|
  {
    if c2 == [] {
      assert c1 + c2 == c1 && o1 + o2 == o1;
    } else {
      var n := |c2| - 1;
      DropLastAppend(c1, c2);
      DropLastAppend(o1, o2);
      ResponsesAppend(c1, o1, c2[..n], o2[..n]);
      AppendAssoc(Responses(c1, o1), Responses(c2[..n], o2[..n]), Reply(c2[n], o2[n]));
    }
  }

  /** Every response sent answers one of the calls, with that call's id and name and the
      output its handler returned. */
  lemma {:induction false} ResponsesTagged(calls: seq<FunctionCall>, outcomes: seq<HandlerOutcome>, j: nat)
    requires |calls| == |outcomes|
    requires j < |Responses(calls, outcomes)|
    ensures exists k :: (0 <= k < |calls| && Answered(outcomes[k])
      && Responses(calls, outcomes)[j] == ToolResponse(calls[k].id, calls[k].name, outcomes[k].result.text))
    decreases |calls|
  {
    var n := |calls| - 1;
    var front := Responses(calls[..n], outcomes[..n]);
    if j < |front| {
      ResponsesTagged(calls[..n], outcomes[..n], j);
      var k :| 0 <= k < n && Answered(outcomes[..n][k])
        && front[j] == ToolResponse(calls[..n][k].id, calls[..n][k].name, outcomes[..n][k].result.text);
      assert calls[..n][k] == calls[k] && outcomes[..n][k] == outcomes[k];
    } else {
      assert Responses(calls, outcomes)[j] == Reply(calls[n], outcomes[n])[0];
    }
  }

  /** No response at all when no handler answers. */
  lemma {:induction false} ResponsesNoneAnswered(calls: seq<FunctionCall>, outcomes: seq<HandlerOutcome>)
    requires |calls| == |outcomes|
    requires forall k :: 0 <= k < |outcomes| ==> !Answered(outcomes[k])
    ensures Responses(calls, outcomes) == []
    decreases |calls|
  {
    if calls != [] {
      var n := |calls| - 1;
      assert forall k :: 0 <= k < n ==> outcomes[..n][k] == outcomes[k];
      ResponsesNoneAnswered(calls[..n], outcomes[..n]);
    }
  }

  /** One response per call, in call order and tagged with that call's id and name, when
      every handler answers. */
  lemma {:induction false} ResponsesAllAnswered(calls: seq<FunctionCall>, outcomes: seq<HandlerOutcome>)
    requires |calls| == |outcomes|
    requires forall k :: 0 <= k < |outcomes| ==> Answered(outcomes[k])
    ensures |Responses(calls, outcomes)| == |calls|
    ensures forall k :: 0 <= k < |calls| ==> (Answered(outcomes[k])
      && Responses(calls, outcomes)[k] == ToolResponse(calls[k].id, calls[k].name, outcomes[k].result.text))
    decreases |calls|
  {
    if calls != [] {
      var n := |calls| - 1;
      var c, o := calls[..n], outcomes[..n];
      assert forall k :: 0 <= k < n ==> o[k] == outcomes[k];
      ResponsesAllAnswered(c, o);
      var r := Responses(calls, outcomes);
      assert r == Responses(c, o) + Reply(calls[n], outcomes[n]);
      forall k | 0 <= k < |calls|
        ensures Answered(outcomes[k]) && r[k] == ToolResponse(calls[k].id, calls[k].name, outcomes[k].result.text)
      {
        if k < n {
          assert c[k] == calls[k];
        }
      }
    }
  }

  /** An inbound server message, reduced to the parts the engine looks at. An empty
      transcription string means the field is absent; `audio` says whether the first
      part carries inline audio data. */
  datatype ServerMessage = ServerMessage(
    outputTranscription: string,
    inputTranscription: string,
    toolCall: Option<seq<FunctionCall>>,
    audio: bool,
    interrupted: bool)

  /** The onTranscript calls a message produces: the model's words before the user's. */
  function Transcripts(msg: ServerMessage): (r: seq<(string, Role)>)
    ensures |r| == (if msg.outputTranscription != "" then 1 else 0) + (if msg.inputTranscription != "" then 1 else 0)
    ensures msg.outputTranscription != "" ==> r[0] == (msg.outputTranscription, Model)
    ensures msg.inputTranscription != "" ==> r[|r| - 1] == (msg.inputTranscription, User)
  {
    (if msg.outputTranscription != "" then [(msg.outputTranscription, Model)] else [])
    + (if msg.inputTranscription != "" then [(msg.inputTranscription, User)] else [])
  }

  /** The playback part of the engine's state: the time cursor, the active sources, the
      next source id, the speaking flag and level, and the stop and schedule logs. */
  datatype AudioState = AudioState(
    cursor: int,
    sources: seq<nat>,
    nextSource: nat,
    speaking: bool,
    volume: real,
    stopped: seq<nat>,
    scheduled: seq<Scheduled>)

  /** What the audio part of one message does to the playback state, given whether the
      output context is open: the chunk first, then the interruption, which a chunk that
      fails to decode skips (the handler throws before it reaches the interruption). */
  function PlaybackEffect(a: AudioState, outputOpen: bool, msg: ServerMessage, now: nat, decoded: Option<nat>): AudioState
  {
    var b :=
      if !(msg.audio && outputOpen) then a
      else if decoded.None? then a.(cursor := StartTime(a.cursor, now))
      else
        var start := StartTime(a.cursor, now);
        a.(cursor := start + decoded.value, sources := a.sources + [a.nextSource], nextSource := a.nextSource + 1,
           speaking := true, volume := SpeakingVolume,
           scheduled := a.scheduled + [Scheduled(a.nextSource, start, decoded.value)]);
    if msg.audio && outputOpen && decoded.None? then b
    else if msg.interrupted then b.(stopped := b.stopped + b.sources, sources := [], cursor := 0, speaking := false)
    else b
  }

  /** Each path of a message's audio part, stated on the playback state. */
  lemma PlaybackEffectCases(a: AudioState, outputOpen: bool, msg: ServerMessage, now: nat, decoded: Option<nat>)
    ensures var r := PlaybackEffect(a, outputOpen, msg, now, decoded);
            var played := msg.audio && outputOpen;
            var start := StartTime(a.cursor, now);
            // A chunk that fails to decode only moves the cursor, and the interruption is skipped.
            && (played && decoded.None? ==> r == a.(cursor := start))
            // A decoded chunk is scheduled at the rule's start time as a new source ...
            && (played && decoded.Some? ==>
                  && r.scheduled == a.scheduled + [Scheduled(a.nextSource, start, decoded.value)]
                  && r.nextSource == a.nextSource + 1 && r.volume == SpeakingVolume
                  && r.stopped == a.stopped + (if msg.interrupted then a.sources + [a.nextSource] else []))
            // ... which plays on, moving the cursor past it, unless the message also interrupts.
            && (played && decoded.Some? && !msg.interrupted ==>
                  r.sources == a.sources + [a.nextSource] && r.speaking && r.cursor == start + decoded.value)
            // Without a chunk to play nothing is scheduled, and without an interruption nothing changes.
            && (!played ==>
                  && r.scheduled == a.scheduled && r.nextSource == a.nextSource && r.volume == a.volume
                  && r.stopped == a.stopped + (if msg.interrupted then a.sources else []))
            && (!played && !msg.interrupted ==> r == a)
            // An interruption that is reached stops everything and rewinds the cursor.
            && (msg.interrupted && !(played && decoded.None?) ==> r.sources == [] && r.cursor == 0 && !r.speaking)
  {
  }

  /** A release log names no handle twice and only handles already handed out. */
  ghost predicate ReleaseLog(released: seq<nat>, next: nat)
  {
    NoDup(released) && forall h :: h in released ==> h < next
  }

  /** The resource invariant over the five slots, the release log and the handle counter. */
  ghost predicate SlotsValid(session: Option<nat>, stream: Option<nat>, processor: Option<nat>,
                             inputContext: Option<nat>, outputContext: Option<nat>,
                             released: seq<nat>, next: nat)
  {
    && ReleaseLog(released, next)
    && Unreleased(session, next, released) && Unreleased(stream, next, released)
    && Unreleased(processor, next, released) && Unreleased(inputContext, next, released)
    && Unreleased(outputContext, next, released)
    && Apart(session, stream) && Apart(session, processor) && Apart(session, inputContext)
    && Apart(session, outputContext) && Apart(stream, processor) && Apart(stream, inputContext)
    && Apart(stream, outputContext) && Apart(processor, inputContext)
    && Apart(processor, outputContext) && Apart(inputContext, outputContext)
  }

  /** A held handle was handed out (is below `next`) and has not been released. */
  predicate Unreleased(o: Option<nat>, next: nat, released: seq<nat>)
  {
    o.Some? ==> o.value < next && o.value !in released
  }

  /** Two resource slots never hold the same handle. */
  predicate Apart(a: Option<nat>, b: Option<nat>)
  {
    a.Some? && b.Some? ==> a.value != b.value
  }

  class LiveSession {
    /** The configured API key; empty when none is configured. */
    const apiKey: string
    /** Whether the caller supplied an onToolCall handler. */
    const hasToolHandler: bool

    var state: ConnectionState
    var volume: real
    var isAiSpeaking: bool

    // The five resource slots; None is a null ref.
    var session: Option<nat>
    var stream: Option<nat>
    var processor: Option<nat>
    var inputContext: Option<nat>
    var outputContext: Option<nat>

    /** The playback time cursor, in output-clock ticks. */
    var nextStartTime: int
    /** The active playback sources, in insertion order. */
    var sources: seq<nat>
    /** Whether the capture callback has been installed on the current processor. */
    var captureArmed: bool
    /** The speaking flag as it was when connect() was called: the capture callback is a
        closure created by that call and reads this copy, not the current flag. */
    var speakingAtConnect: bool

    // Effects on the outside world, as logs, and the counters that number new objects.
    var nextHandle: nat
    var nextSource: nat
    /** The handles released so far, in order; the invariant keeps it free of repeats. */
    var released: seq<nat>
    var stopped: seq<nat>
    var scheduled: seq<Scheduled>
    var toolResponses: seq<ToolResponse>

    /** The resources held, in the order disconnect releases them. */
    function Held(): seq<nat>
      reads this`session, this`stream, this`processor, this`inputContext, this`outputContext
    {
      OptList(session) + OptList(stream) + OptList(processor) + OptList(inputContext) + OptList(outputContext)
    }

    /** No handle is released twice, every released handle was handed out, and every
        handle still held is distinct from the others and not yet released. */
    ghost predicate ResourcesValid()
      reads this`session, this`stream, this`processor, this`inputContext, this`outputContext
      reads this`released, this`nextHandle
    {
      SlotsValid(session, stream, processor, inputContext, outputContext, released, nextHandle)
    }

    /** The model is speaking exactly while some source is active, and then the level
        shown is the fixed speaking level. */
    ghost predicate PlaybackValid()
      reads this`sources, this`nextSource, this`isAiSpeaking, this`volume
    {
      && NoDup(sources)
      && (forall s :: s in sources ==> s < nextSource)
      && (isAiSpeaking <==> sources != [])
      && (isAiSpeaking ==> volume == SpeakingVolume)
    }

    ghost predicate Valid()
      reads this
    {
      ResourcesValid() && PlaybackValid()
    }

    /** The playback part of the state, which inbound messages change. */
    function Audio(): AudioState
      reads this`nextStartTime, this`sources, this`nextSource, this`isAiSpeaking, this`volume
      reads this`stopped, this`scheduled
    {
      AudioState(nextStartTime, sources, nextSource, isAiSpeaking, volume, stopped, scheduled)
    }

    constructor (apiKey: string, hasToolHandler: bool)
      ensures Valid()
      ensures this.apiKey == apiKey && this.hasToolHandler == hasToolHandler
      ensures state == Disconnected && volume == 0.0 && !isAiSpeaking
      ensures Held() == [] && sources == [] && nextStartTime == 0 && !captureArmed
      ensures released == [] && stopped == [] && scheduled == [] && toolResponses == []
    {
      this.apiKey := apiKey;
      this.hasToolHandler := hasToolHandler;
      state := Disconnected;
      volume := 0.0;
      isAiSpeaking := false;
      session, stream, processor, inputContext, outputContext := None, None, None, None, None;
      nextStartTime := 0;
      sources := [];
      captureArmed, speakingAtConnect := false, false;
      nextHandle, nextSource := 0, 0;
      released, stopped, scheduled, toolResponses := [], [], [], [];
    }

    /** Obtains a new, never used resource handle. */
    method Acquire() returns (h: nat)
      requires ResourcesValid()
      modifies this`nextHandle
      ensures ResourcesValid()
      ensures h == old(nextHandle) && nextHandle == h + 1 && h !in released
    {
      h := nextHandle;
      nextHandle := nextHandle + 1;
    }

    /** Releases one handle, which must not have been released before. */
    method Release(h: nat)
      requires NoDup(released) && h !in released
      modifies this`released
      ensures released == old(released) + [h] && NoDup(released)
    {
      NoDupSnoc(released, h);
      released := released + [h];
    }

    // One guarded release per resource slot: release only a held handle, then null the slot.

    method ReleaseSession()
      requires ResourcesValid()
      modifies this`session, this`released
      ensures ResourcesValid() && session.None? && released == old(released) + OptList(old(session))
    {
      if session.Some? {
        Release(session.value);
        session := None;
      }
    }

    method ReleaseStream()
      requires ResourcesValid()
      modifies this`stream, this`released
      ensures ResourcesValid() && stream.None? && released == old(released) + OptList(old(stream))
    {
      if stream.Some? {
        Release(stream.value);
        stream := None;
      }
    }

    method ReleaseProcessor()
      requires ResourcesValid()
      modifies this`processor, this`released
      ensures ResourcesValid() && processor.None? && released == old(released) + OptList(old(processor))
    {
      if processor.Some? {
        Release(processor.value);
        processor := None;
      }
    }

    method ReleaseInputContext()
      requires ResourcesValid()
      modifies this`inputContext, this`released
      ensures ResourcesValid() && inputContext.None? && released == old(released) + OptList(old(inputContext))
    {
      if inputContext.Some? {
        Release(inputContext.value);
        inputContext := None;
      }
    }

    method ReleaseOutputContext()
      requires ResourcesValid()
      modifies this`outputContext, this`released
      ensures ResourcesValid() && outputContext.None? && released == old(released) + OptList(old(outputContext))
    {
      if outputContext.Some? {
        Release(outputContext.value);
        outputContext := None;
      }
    }

    /** Stops every active source, in insertion order, and empties the set. */
    method StopAllSources()
      modifies this`stopped, this`sources
      ensures stopped == old(stopped) + old(sources)
      ensures sources == []
    {
      var log := stopped;
      for i := 0 to |sources|
        invariant log == old(stopped) + sources[..i]
      {
        log := log + [sources[i]];
      }
      assert sources[..|sources|] == sources;
      stopped := log;
      sources := [];
    }

    /** The five guarded releases of disconnect, in order. */
    method ReleaseAll()
      requires ResourcesValid()
      modifies this`session, this`stream, this`processor, this`inputContext, this`outputContext
      modifies this`released
      ensures ResourcesValid() && Held() == []
      ensures released == old(released) + old(Held())
    {
      ReleaseSession();
      ghost var done := OptList(old(session));
      ReleaseStream();
      AppendAssoc(old(released), done, OptList(old(stream)));
      done := done + OptList(old(stream));
      ReleaseProcessor();
      AppendAssoc(old(released), done, OptList(old(processor)));
      done := done + OptList(old(processor));
      ReleaseInputContext();
      AppendAssoc(old(released), done, OptList(old(inputContext)));
      done := done + OptList(old(inputContext));
      ReleaseOutputContext();
      AppendAssoc(old(released), done, OptList(old(outputContext)));
      done := done + OptList(old(outputContext));
      assert done == old(Held());
    }

    /** disconnect(): releases every held resource exactly once (each release guarded by
        a null check and followed by nulling the slot), stops every source, and resets the
        visible state. It leaves the time cursor where it is. */
    method Disconnect()
      requires Valid()
      modifies this`session, this`stream, this`processor, this`inputContext, this`outputContext
      modifies this`released, this`stopped, this`sources, this`state, this`isAiSpeaking, this`volume
      ensures Valid()
      ensures released == old(released) + old(Held())
      ensures stopped == old(stopped) + old(sources)
      ensures Held() == [] && sources == []
      ensures state == Disconnected && !isAiSpeaking && volume == 0.0
    {
      ReleaseAll();
      ResetPlayback();
      state := Disconnected;
    }

    /** The playback half of disconnect: every source stopped, silent, level zero. */
    method ResetPlayback()
      modifies this`stopped, this`sources, this`isAiSpeaking, this`volume
      ensures PlaybackValid()
      ensures stopped == old(stopped) + old(sources)
      ensures sources == [] && !isAiSpeaking && volume == 0.0
    {
      StopAllSources();
      isAiSpeaking, volume := false, 0.0;
    }

    /** A second disconnect releases and stops nothing more than the first did. */
    method DisconnectTwice()
      requires Valid()
      modifies this`session, this`stream, this`processor, this`inputContext, this`outputContext
      modifies this`released, this`stopped, this`sources, this`state, this`isAiSpeaking, this`volume
      ensures Valid()
      ensures released == old(released) + old(Held())
      ensures stopped == old(stopped) + old(sources)
      ensures state == Disconnected && Held() == [] && sources == [] && !isAiSpeaking && volume == 0.0
    {
      Disconnect();
      Disconnect();
    }

    /** connect(), up to the point where it waits for the remote session. Without an API key
        it moves to Error and acquires nothing. Otherwise it moves to Connecting, opens the
        output context (setting the cursor to that context's clock) and the input context;
        if the microphone is denied it tears down and ends in Error, else it takes the
        microphone stream and the processor and waits for the session to open. */
    method Connect(clock: nat, micGranted: bool)
      requires Valid()
      modifies this`session, this`stream, this`processor, this`inputContext, this`outputContext
      modifies this`released, this`stopped, this`sources, this`state, this`isAiSpeaking, this`volume
      modifies this`nextHandle, this`nextStartTime, this`captureArmed, this`speakingAtConnect
      ensures Valid()
      ensures speakingAtConnect == old(isAiSpeaking)
      ensures apiKey == "" ==>
        state == Error && session == old(session) && stream == old(stream) && processor == old(processor)
        && inputContext == old(inputContext) && outputContext == old(outputContext)
        && released == old(released) && stopped == old(stopped) && nextHandle == old(nextHandle)
        && sources == old(sources) && isAiSpeaking == old(isAiSpeaking) && volume == old(volume)
        && nextStartTime == old(nextStartTime) && captureArmed == old(captureArmed)
      ensures apiKey != "" && !micGranted ==>
        state == Error && Held() == [] && sources == [] && !isAiSpeaking && volume == 0.0
        && released == old(released) + (OptList(old(session)) + OptList(old(stream)) + OptList(old(processor)))
                       + [old(nextHandle) + 1, old(nextHandle)]
        && stopped == old(stopped) + old(sources)
        && nextHandle == old(nextHandle) + 2 && nextStartTime == clock && captureArmed == old(captureArmed)
      ensures apiKey != "" && micGranted ==>
        state == Connecting && nextStartTime == clock && !captureArmed
        && outputContext == Some(old(nextHandle)) && inputContext == Some(old(nextHandle) + 1)
        && stream == Some(old(nextHandle) + 2) && processor == Some(old(nextHandle) + 3)
        && session == old(session) && released == old(released) && stopped == old(stopped)
        && nextHandle == old(nextHandle) + 4
        && sources == old(sources) && isAiSpeaking == old(isAiSpeaking) && volume == old(volume)
    {
      speakingAtConnect := isAiSpeaking;
      if apiKey == "" {
        state := Error;
        return;
      }
      state := Connecting;
      OpenAudio(clock, micGranted);
    }

    /** The try block of connect: both contexts, then the microphone or, when it is
        denied, the teardown. */
    method OpenAudio(clock: nat, micGranted: bool)
      requires Valid()
      modifies this`session, this`stream, this`processor, this`inputContext, this`outputContext
      modifies this`released, this`stopped, this`sources, this`state, this`isAiSpeaking, this`volume
      modifies this`nextHandle, this`nextStartTime, this`captureArmed
      ensures Valid()
      ensures !micGranted ==>
        state == Error && Held() == [] && sources == [] && !isAiSpeaking && volume == 0.0
        && released == old(released) + (OptList(old(session)) + OptList(old(stream)) + OptList(old(processor)))
                       + [old(nextHandle) + 1, old(nextHandle)]
        && stopped == old(stopped) + old(sources)
        && nextHandle == old(nextHandle) + 2 && nextStartTime == clock && captureArmed == old(captureArmed)
      ensures micGranted ==>
        state == old(state) && nextStartTime == clock && !captureArmed
        && outputContext == Some(old(nextHandle)) && inputContext == Some(old(nextHandle) + 1)
        && stream == Some(old(nextHandle) + 2) && processor == Some(old(nextHandle) + 3)
        && session == old(session) && released == old(released) && stopped == old(stopped)
        && nextHandle == old(nextHandle) + 4
        && sources == old(sources) && isAiSpeaking == old(isAiSpeaking) && volume == old(volume)
    {
      OpenContexts(clock);
      if micGranted {
        OpenMicrophone();
      } else {
        DenyMicrophone();
      }
    }

    /** The microphone was denied after both contexts were opened: tear down and report
        Error. The two contexts are released last, input before output. */
    method DenyMicrophone()
      requires Valid()
      requires inputContext == Some(nextHandle - 1) && outputContext == Some(nextHandle - 2)
      modifies this`session, this`stream, this`processor, this`inputContext, this`outputContext
      modifies this`released, this`stopped, this`sources, this`state, this`isAiSpeaking, this`volume
      ensures Valid()
      ensures state == Error && Held() == [] && sources == [] && !isAiSpeaking && volume == 0.0
      ensures released == old(released) + (OptList(old(session)) + OptList(old(stream)) + OptList(old(processor)))
                          + [old(nextHandle) - 1, old(nextHandle) - 2]
      ensures stopped == old(stopped) + old(sources)
    {
      ghost var kept := OptList(session) + OptList(stream) + OptList(processor);
      ghost var fresh2 := [nextHandle - 1, nextHandle - 2];
      assert Held() == kept + fresh2;
      FailConnect();
      AppendAssoc(old(released), kept, fresh2);
    }

    /** The catch block of connect: tear down, then report Error. */
    method FailConnect()
      requires Valid()
      modifies this`session, this`stream, this`processor, this`inputContext, this`outputContext
      modifies this`released, this`stopped, this`sources, this`state, this`isAiSpeaking, this`volume
      ensures Valid()
      ensures state == Error && Held() == [] && sources == [] && !isAiSpeaking && volume == 0.0
      ensures released == old(released) + old(Held()) && stopped == old(stopped) + old(sources)
    {
      Disconnect();
      state := Error;
    }

    /** The output context (whose clock becomes the cursor) and the input context. */
    method OpenContexts(clock: nat)
      requires Valid()
      modifies this`outputContext, this`inputContext, this`nextStartTime, this`nextHandle
      ensures Valid()
      ensures outputContext == Some(old(nextHandle)) && inputContext == Some(old(nextHandle) + 1)
      ensures nextHandle == old(nextHandle) + 2 && nextStartTime == clock
    {
      var out := Acquire();
      outputContext := Some(out);
      nextStartTime := clock;
      var inp := Acquire();
      inputContext := Some(inp);
    }

    /** The microphone stream and the processor that will carry the capture callback. */
    method OpenMicrophone()
      requires Valid()
      modifies this`stream, this`processor, this`captureArmed, this`nextHandle
      ensures Valid()
      ensures stream == Some(old(nextHandle)) && processor == Some(old(nextHandle) + 1)
      ensures nextHandle == old(nextHandle) + 2 && !captureArmed
    {
      var mic := Acquire();
      stream := Some(mic);
      var proc := Acquire();
      processor := Some(proc);
      captureArmed := false;
    }

    /** onopen: the session is live and the capture callback is installed. */
    method OnOpen()
      requires Valid()
      modifies this`state, this`captureArmed
      ensures Valid()
      ensures state == Connected && captureArmed
    {
      state := Connected;
      captureArmed := true;
    }

    /** The wait for the remote session ends: on success the session is held; on failure
        everything is torn down and the state is Error. */
    method OnSessionSettled(ok: bool)
      requires Valid()
      modifies this`session, this`stream, this`processor, this`inputContext, this`outputContext
      modifies this`released, this`stopped, this`sources, this`state, this`isAiSpeaking, this`volume
      modifies this`nextHandle
      ensures Valid()
      ensures ok ==>
        session == Some(old(nextHandle)) && nextHandle == old(nextHandle) + 1 && state == old(state)
        && stream == old(stream) && processor == old(processor)
        && inputContext == old(inputContext) && outputContext == old(outputContext)
        && released == old(released) && stopped == old(stopped)
        && sources == old(sources) && isAiSpeaking == old(isAiSpeaking) && volume == old(volume)
      ensures !ok ==>
        state == Error && Held() == [] && sources == [] && !isAiSpeaking && volume == 0.0
        && released == old(released) + old(Held()) && stopped == old(stopped) + old(sources)
        && nextHandle == old(nextHandle)
    {
      if ok {
        var s := Acquire();
        session := Some(s);
      } else {
        FailConnect();
      }
    }

    /** The capture callback for one microphone frame with the given RMS level, reading
        the current speaking flag: it runs only while the processor is connected and the
        callback installed, and shows the microphone level only while the model is silent. */
    method OnAudioProcess(rms: real)
      requires Valid()
      modifies this`volume
      ensures Valid()
      ensures volume == if processor.Some? && captureArmed && !isAiSpeaking then rms else old(volume)
    {
      if processor.Some? && captureArmed && !isAiSpeaking {
        volume := rms;
      }
    }

    /** The capture callback as the source installs it: the closure reads the speaking flag
        captured when connect() was called, so frames that arrive while the model speaks
        still overwrite the level when it was silent at connect time. */
    method OnAudioProcessAsWritten(rms: real)
      requires Valid()
      modifies this`volume
      ensures ResourcesValid()
      ensures volume == if processor.Some? && captureArmed && !speakingAtConnect then rms else old(volume)
    {
      if processor.Some? && captureArmed && !speakingAtConnect {
        volume := rms;
      }
    }

    /** An inbound audio chunk at output-clock time `now`; `decoded` is the decoded buffer's
        duration, or None when decoding fails. Without an output context the chunk is
        ignored. Otherwise the cursor moves to max(cursor, now); a decoded chunk is then
        scheduled there as a new source, the model is speaking at the fixed level, and the
        cursor moves to the chunk's end. */
    method OnAudioChunk(now: nat, decoded: Option<nat>) returns (source: Option<nat>)
      requires Valid()
      modifies this`nextStartTime, this`nextSource, this`scheduled, this`sources, this`isAiSpeaking, this`volume
      ensures Valid()
      ensures outputContext.None? ==>
        source.None? && nextStartTime == old(nextStartTime) && sources == old(sources)
        && scheduled == old(scheduled) && isAiSpeaking == old(isAiSpeaking) && volume == old(volume)
      ensures outputContext.Some? && decoded.None? ==>
        source.None? && nextStartTime == StartTime(old(nextStartTime), now) && sources == old(sources)
        && scheduled == old(scheduled) && isAiSpeaking == old(isAiSpeaking) && volume == old(volume)
      ensures nextSource == old(nextSource) + (if outputContext.Some? && decoded.Some? then 1 else 0)
      ensures outputContext.Some? && decoded.Some? ==>
        var start := StartTime(old(nextStartTime), now);
        && source == Some(old(nextSource))
        && scheduled == old(scheduled) + [Scheduled(old(nextSource), start, decoded.value)]
        && sources == old(sources) + [old(nextSource)]
        && isAiSpeaking && volume == SpeakingVolume
        && nextStartTime == start + decoded.value
    {
      source := None;
      if outputContext.None? {
        return;
      }
      nextStartTime := StartTime(nextStartTime, now);
      if decoded.None? {
        return;
      }
      var id := StartSource(decoded.value);
      source := Some(id);
    }

    /** A decoded buffer becomes a new source started at the cursor: it joins the active
        set, the model is speaking, and the cursor moves past the buffer. */
    method StartSource(duration: nat) returns (id: nat)
      requires Valid()
      modifies this`nextStartTime, this`nextSource, this`scheduled, this`sources, this`isAiSpeaking, this`volume
      ensures Valid()
      ensures id == old(nextSource) && nextSource == id + 1
      ensures scheduled == old(scheduled) + [Scheduled(id, old(nextStartTime), duration)]
      ensures sources == old(sources) + [id]
      ensures isAiSpeaking && volume == SpeakingVolume
      ensures nextStartTime == old(nextStartTime) + duration
    {
      id := nextSource;
      NoDupSnoc(sources, id);
      nextSource, scheduled, sources := id + 1, scheduled + [Scheduled(id, nextStartTime, duration)], sources + [id];
      isAiSpeaking, volume, nextStartTime := true, SpeakingVolume, nextStartTime + duration;
    }

    /** A source's ended event: it leaves the set, and the model stops speaking only when
        the set is empty. */
    method OnSourceEnded(source: nat)
      requires Valid()
      modifies this`sources, this`isAiSpeaking
      ensures Valid()
      ensures sources == Remove(old(sources), source)
      ensures isAiSpeaking == (sources != [])
      ensures old(sources) != [source] && source in old(sources) ==> isAiSpeaking
    {
      sources := Remove(sources, source);
      if sources == [] {
        isAiSpeaking := false;
      }
    }

    /** The interrupted signal: stop and forget every source, reset the cursor to 0, and
        stop speaking. */
    method OnInterrupted()
      requires Valid()
      modifies this`stopped, this`sources, this`nextStartTime, this`isAiSpeaking
      ensures Valid()
      ensures stopped == old(stopped) + old(sources)
      ensures sources == [] && nextStartTime == 0 && !isAiSpeaking
    {
      StopAllSources();
      nextStartTime := 0;
      isAiSpeaking := false;
    }

    /** A tool-call batch: each call is passed to the handler in order; a truthy result is
        sent back tagged with the call's id and name; a falsy result or a thrown error sends
        nothing and the loop goes on. Without a handler the batch is ignored. */
    method OnToolCalls(calls: seq<FunctionCall>, outcomes: seq<HandlerOutcome>)
      requires Valid()
      requires |outcomes| == |calls|
      modifies this`toolResponses
      ensures Valid()
      ensures toolResponses == old(toolResponses) + (if hasToolHandler then Responses(calls, outcomes) else [])
    {
      if !hasToolHandler {
        return;
      }
      var log := toolResponses;
      for i := 0 to |calls|
        invariant log == old(toolResponses) + Responses(calls[..i], outcomes[..i])
      {
        assert calls[..i + 1][..i] == calls[..i] && outcomes[..i + 1][..i] == outcomes[..i];
        match outcomes[i]
        case Returned(result) =>
          if Truthy(result) {
            log := log + [ToolResponse(calls[i].id, calls[i].name, result.text)];
          }
        case Threw =>
      }
      assert calls[..|calls|] == calls && outcomes[..|calls|] == outcomes;
      toolResponses := log;
    }

    /** onclose: tear down; the state ends Disconnected. */
    method OnClose()
      requires Valid()
      modifies this`session, this`stream, this`processor, this`inputContext, this`outputContext
      modifies this`released, this`stopped, this`sources, this`state, this`isAiSpeaking, this`volume
      ensures Valid()
      ensures state == Disconnected && Held() == [] && sources == [] && !isAiSpeaking && volume == 0.0
      ensures released == old(released) + old(Held()) && stopped == old(stopped) + old(sources)
    {
      Disconnect();
    }

    /** onerror: tear down; the state ends Error. */
    method OnError()
      requires Valid()
      modifies this`session, this`stream, this`processor, this`inputContext, this`outputContext
      modifies this`released, this`stopped, this`sources, this`state, this`isAiSpeaking, this`volume
      ensures Valid()
      ensures state == Error && Held() == [] && sources == [] && !isAiSpeaking && volume == 0.0
      ensures released == old(released) + old(Held()) && stopped == old(stopped) + old(sources)
    {
      Disconnect();
      state := Error;
    }

    /** onmessage for one server message: transcriptions go to the transcript callback
        (returned here, model before user), then the tool calls, then the audio chunk,
        then the interruption. A chunk that fails to decode ends the handler early, so an
        interruption in the same message is then not processed. */
    method OnMessage(msg: ServerMessage, now: nat, decoded: Option<nat>, outcomes: seq<HandlerOutcome>)
      returns (transcripts: seq<(string, Role)>, source: Option<nat>)
      requires Valid()
      requires msg.toolCall.Some? ==> |outcomes| == |msg.toolCall.value|
      modifies this`toolResponses, this`stopped
      modifies this`nextStartTime, this`nextSource, this`scheduled, this`sources, this`isAiSpeaking, this`volume
      ensures Valid()
      ensures transcripts == Transcripts(msg)
      ensures toolResponses == old(toolResponses) +
        (if msg.toolCall.Some? && hasToolHandler then Responses(msg.toolCall.value, outcomes) else [])
      ensures Audio() == PlaybackEffect(old(Audio()), outputContext.Some?, msg, now, decoded)
      ensures source == if msg.audio && outputContext.Some? && decoded.Some? then Some(old(nextSource)) else None
    {
      transcripts := Transcripts(msg);
      ghost var before := Audio();
      if msg.toolCall.Some? {
        OnToolCalls(msg.toolCall.value, outcomes);
      }
      assert Audio() == before;
      source := OnPlayback(msg, now, decoded);
    }

    /** The audio part of onmessage: the chunk, if any, then the interruption, unless the
        chunk failed to decode. */
    method OnPlayback(msg: ServerMessage, now: nat, decoded: Option<nat>) returns (source: Option<nat>)
      requires Valid()
      modifies this`stopped, this`nextStartTime, this`nextSource, this`scheduled, this`sources, this`isAiSpeaking, this`volume
      ensures Valid()
      ensures Audio() == PlaybackEffect(old(Audio()), outputContext.Some?, msg, now, decoded)
      ensures source == if msg.audio && outputContext.Some? && decoded.Some? then Some(old(nextSource)) else None
    {
      ghost var before := Audio();
      source := None;
      if msg.audio {
        source := OnAudioChunk(now, decoded);
        if outputContext.Some? && decoded.None? {
          assert Audio() == before.(cursor := StartTime(before.cursor, now));
          return;
        }
      }
      if msg.interrupted {
        OnInterrupted();
      }
    }
  }

  /** After an interruption the next chunk starts on arrival, whatever the cursor was. */
  method InterruptThenChunk(s: LiveSession, now: nat, duration: nat) returns (source: Option<nat>)
    requires s.Valid() && s.outputContext.Some?
    modifies s
    ensures s.Valid()
    ensures source.Some? && s.scheduled == old(s.scheduled) + [Scheduled(source.value, now, duration)]
    ensures s.nextStartTime == now + duration && s.isAiSpeaking
  {
    s.OnInterrupted();
    source := s.OnAudioChunk(now, Some(duration));
  }

  /** While the model speaks, a microphone frame leaves the level at the speaking level. */
  method FrameWhileSpeaking(s: LiveSession, rms: real)
    requires s.Valid() && s.isAiSpeaking
    modifies s`volume
    ensures s.Valid() && s.volume == SpeakingVolume
  {
    s.OnAudioProcess(rms);
  }

  /** As written, a frame that arrives while the model speaks, in a session connected while
      it was silent, replaces the speaking level with the microphone level. */
  method StaleFrameWhileSpeaking(s: LiveSession, rms: real)
    requires s.Valid() && s.isAiSpeaking && !s.speakingAtConnect
    requires s.processor.Some? && s.captureArmed && rms != SpeakingVolume
    modifies s`volume
    ensures s.isAiSpeaking && s.volume == rms && s.volume != SpeakingVolume
    ensures !s.PlaybackValid()
  {
    s.OnAudioProcessAsWritten(rms);
  }

  /** The sources a run of chunks schedules from a cursor: consecutive ids from `first`,
      each chunk started by the scheduling rule. */
  function ScheduleOf(first: nat, cursor: int, arrivals: seq<Arrival>): (r: seq<Scheduled>)
    ensures |r| == |arrivals|
    decreases |arrivals|
  {
    if arrivals == [] then []
    else
      var start := StartTime(cursor, arrivals[0].now);
      [Scheduled(first, start, arrivals[0].duration)] + ScheduleOf(first + 1, start + arrivals[0].duration, arrivals[1..])
  }

  /** Entry k of a run's schedule is source first + k, started at the rule's k-th start
      time, for the k-th chunk's duration. */
  lemma {:induction false} ScheduleOfEntries(first: nat, cursor: int, arrivals: seq<Arrival>)
    ensures forall k :: 0 <= k < |arrivals| ==>
      ScheduleOf(first, cursor, arrivals)[k] == Scheduled(first + k, Starts(cursor, arrivals)[k], arrivals[k].duration)
    decreases |arrivals|
  {
    if arrivals != [] {
      var start := StartTime(cursor, arrivals[0].now);
      ScheduleOfEntries(first + 1, start + arrivals[0].duration, arrivals[1..]);
    }
  }

  /** Playing a run is playing its first chunk and then the rest from where the first
      chunk ends: the schedule and the final cursor split the same way. */
  lemma {:induction false} ScheduleOfFirst(log: seq<Scheduled>, first: nat, cursor: int, arrivals: seq<Arrival>)
    requires arrivals != []
    ensures var start := StartTime(cursor, arrivals[0].now);
            var next := start + arrivals[0].duration;
            && log + [Scheduled(first, start, arrivals[0].duration)] + ScheduleOf(first + 1, next, arrivals[1..])
               == log + ScheduleOf(first, cursor, arrivals)
            && FinalCursor(cursor, arrivals) == FinalCursor(next, arrivals[1..])
  {
    var start := StartTime(cursor, arrivals[0].now);
    AppendAssoc(log, [Scheduled(first, start, arrivals[0].duration)], ScheduleOf(first + 1, start + arrivals[0].duration, arrivals[1..]));
  }

  /** One decoded chunk on an open output context: its entry joins the schedule and the
      cursor moves to where it ends. */
  method PlayChunk(s: LiveSession, a: Arrival)
    requires s.Valid() && s.outputContext.Some?
    modifies s`nextStartTime, s`nextSource, s`scheduled, s`sources, s`isAiSpeaking, s`volume
    ensures s.Valid()
    ensures s.scheduled == old(s.scheduled) + [Scheduled(old(s.nextSource), StartTime(old(s.nextStartTime), a.now), a.duration)]
    ensures s.nextStartTime == StartTime(old(s.nextStartTime), a.now) + a.duration
    ensures s.nextSource == old(s.nextSource) + 1
    ensures s.isAiSpeaking && s.volume == SpeakingVolume
  {
    var _ := s.OnAudioChunk(a.now, Some(a.duration));
  }

  /** Chunks that arrive one after another, each decoding, are played exactly at the start
      times of the scheduling rule, so its gap and overlap lemmas hold of what the engine
      schedules; the cursor ends where the rule's cursor ends. */
  method PlayChunks(s: LiveSession, arrivals: seq<Arrival>)
    requires s.Valid() && s.outputContext.Some?
    modifies s`nextStartTime, s`nextSource, s`scheduled, s`sources, s`isAiSpeaking, s`volume
    ensures s.Valid()
    ensures s.scheduled == old(s.scheduled) + ScheduleOf(old(s.nextSource), old(s.nextStartTime), arrivals)
    ensures s.nextStartTime == FinalCursor(old(s.nextStartTime), arrivals)
    ensures s.nextSource == old(s.nextSource) + |arrivals|
    ensures arrivals != [] ==> s.isAiSpeaking && s.volume == SpeakingVolume
    ensures arrivals == [] ==> s.isAiSpeaking == old(s.isAiSpeaking) && s.volume == old(s.volume)
    decreases |arrivals|
  {
    if arrivals != [] {
      ScheduleOfFirst(s.scheduled, s.nextSource, s.nextStartTime, arrivals);
      PlayChunk(s, arrivals[0]);
      PlayChunks(s, arrivals[1..]);
    } else {
      assert s.scheduled + ScheduleOf(s.nextSource, s.nextStartTime, arrivals) == s.scheduled;
    }
  }
}
