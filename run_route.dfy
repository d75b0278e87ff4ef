/**
 * The run route (app/api/codex/run/route.ts): validates the prompt, then
 * streams every event of one `runCodex` call as a server-sent-event frame,
 * closing the stream after the first terminal event.
 */
module RunRoute {
  import opened Wrappers
  import opened Js
  import opened Events
  import opened Codex

  /** A response body: one JSON text, or an event stream given by the events whose frames it carries. */
  datatype Body = Text(text: string) | EventStream(events: seq<CodexEvent>)

  /** An HTTP response: status, explicitly set headers, body. */
  datatype Response = Response(status: nat, headers: seq<(string, string)>, body: Body)

  /** The chunks written to the body: the text, or one `data: <json>` frame per event, in order. */
  function Chunks(b: Body): seq<string> {
    match b
    case Text(t) => [t]
    case EventStream(events) => Frames(events)
  }

  const PromptRequiredBody := "{\"error\":\"prompt is required\"}"
  const StreamFailed := "Stream failed"
  const SseHeaders: seq<(string, string)> :=
    [("Content-Type", "text/event-stream"), ("Cache-Control", "no-cache"), ("Connection", "keep-alive")]

  function Frames(events: seq<CodexEvent>): (r: seq<string>)
    ensures |r| == |events|
  {
    if events == [] then [] else [ToSseEvent(events[0])] + Frames(events[1..])
  }

  /** The frame at each position is that event's `data: <json>` record: one frame per event, in order. */
  lemma {:induction false} FramesAt(events: seq<CodexEvent>, i: nat)
    requires i < |events|
    ensures Frames(events)[i] == ToSseEvent(events[i])
    decreases i
  {
    if i > 0 {
      FramesAt(events[1..], i - 1);
      assert events[1..][i - 1] == events[i];
    }
  }

  /**
   * The events `start(controller)` writes for any producer: those up to and
   * including the first terminal event; if the producer throws before one,
   * a final "Stream failed" error (its frame is the one written in the catch branch).
   */
  function Transport(produced: seq<CodexEvent>, throws: bool): (r: seq<CodexEvent>)
    ensures |r| <= |produced| + 1
    ensures forall i :: 0 <= i < |r| - 1 ==> r[i] == produced[i] && !IsTerminal(r[i])
    ensures r != [] && |r| <= |produced| ==> r[|r| - 1] == produced[|r| - 1]
    ensures |r| == |produced| + 1 ==> throws && r[|r| - 1] == Error(StreamFailed)
    decreases |produced|
  {
    if produced == [] then (if throws then [Error(StreamFailed)] else [])
    else if IsTerminal(produced[0]) then [produced[0]]
    else [produced[0]] + Transport(produced[1..], throws)
  }

  /** The transport stops at the first terminal event: whatever follows it, or a later throw, is not written. */
  lemma {:induction false} TransportStopsAtTerminal(before: seq<CodexEvent>, t: CodexEvent, after: seq<CodexEvent>, throws: bool)
    requires forall i :: 0 <= i < |before| ==> !IsTerminal(before[i])
    requires IsTerminal(t)
    ensures Transport(before + [t] + after, throws) == before + [t]
  {
    if before == [] {
      assert (before + [t] + after)[0] == t;
    } else {
      TransportStopsAtTerminal(before[1..], t, after, throws);
      assert (before + [t] + after)[1..] == before[1..] + [t] + after;
      assert before == [before[0]] + before[1..];
    }
  }

  /** A producer that throws before any terminal event still ends the stream with an error. */
  lemma {:induction false} TransportThrowEnds(produced: seq<CodexEvent>)
    requires forall i :: 0 <= i < |produced| ==> !IsTerminal(produced[i])
    ensures Transport(produced, true) == produced + [Error(StreamFailed)]
    ensures Transport(produced, false) == produced
  {
    if produced != [] {
      TransportThrowEnds(produced[1..]);
      assert produced == [produced[0]] + produced[1..];
    }
  }

  /** A run's events pass through the transport unchanged: their one terminal event is the last. */
  lemma TransportRun(busy: bool, hasThread: bool, sdk: SdkTurn)
    ensures Transport(RunEvents(busy, hasThread, sdk), false) == RunEvents(busy, hasThread, sdk)
  {
    var planned := RunEvents(busy, hasThread, sdk);
    RunEventsShape(busy, hasThread, sdk);
    var n := |planned| - 1;
    TransportStopsAtTerminal(planned[..n], planned[n], [], false);
    assert planned[..n] + [planned[n]] + [] == planned;
  }

  /**
   * `POST`: a rejected prompt gets 400 with the JSON error and leaves the
   * runner alone; an accepted one streams the run's events as frames and,
   * because the terminal frame ends the loop and so runs the generator's
   * finally block, leaves the lock as it found it.
   */
  method Post(prompt: JsValue, codex: CodexModule, sdk: SdkTurn) returns (res: Response)
    modifies codex
    ensures !TruthyString(prompt) ==> res == Response(400, [], Text(PromptRequiredBody))
    ensures !TruthyString(prompt) ==> codex.isRunning == old(codex.isRunning) && codex.activeThread == old(codex.activeThread)
    ensures TruthyString(prompt) ==> res.status == 200 && res.headers == SseHeaders
    ensures TruthyString(prompt) ==>
      res.body == EventStream(Transport(RunEvents(old(codex.isRunning), old(codex.activeThread).Some?, sdk), false))
    ensures codex.isRunning == old(codex.isRunning)
    ensures TruthyString(prompt) && !old(codex.isRunning) && old(codex.activeThread).None? && sdk.startFailure.None? ==>
      codex.activeThread == Some(old(codex.threadsStarted))
    ensures !(TruthyString(prompt) && !old(codex.isRunning) && old(codex.activeThread).None? && sdk.startFailure.None?) ==>
      codex.activeThread == old(codex.activeThread)
  {
    if !TruthyString(prompt) {
      return Response(400, [], Text(PromptRequiredBody));
    }
    TransportRun(codex.isRunning, codex.activeThread.Some?, sdk);
    var written := Stream(codex, sdk);
    res := Response(200, SseHeaders, EventStream(written));
  }

  /** The `for await` loop of `start(controller)` over a fresh run, up to and including its terminal event. */
  method Stream(codex: CodexModule, sdk: SdkTurn) returns (written: seq<CodexEvent>)
    modifies codex
    ensures written == RunEvents(old(codex.isRunning), old(codex.activeThread).Some?, sdk)
    ensures codex.isRunning == old(codex.isRunning)
    ensures !old(codex.isRunning) && old(codex.activeThread).None? && sdk.startFailure.None? ==>
      codex.activeThread == Some(old(codex.threadsStarted))
    ensures !(!old(codex.isRunning) && old(codex.activeThread).None? && sdk.startFailure.None?) ==>
      codex.activeThread == old(codex.activeThread)
  {
    ghost var busy := codex.isRunning;
    ghost var planned := RunEvents(codex.isRunning, codex.activeThread.Some?, sdk);
    RunEventsShape(codex.isRunning, codex.activeThread.Some?, sdk);
    var gen := new RunGenerator(codex, sdk);
    written := [];
    var ev := gen.Next();
    ghost var thread := codex.activeThread;
    while !IsTerminal(ev.value)
      invariant gen.Valid() && gen.codex == codex && gen.sdk == sdk
      invariant gen.planned == planned && gen.startedBusy == busy
      invariant ev.Some? && gen.emitted == written + [ev.value]
      invariant gen.phase.Streaming? || gen.phase.Ended? || gen.phase.Refused?
      invariant codex.isRunning && codex.activeThread == thread
      decreases gen.Rank()
    {
      written := written + [ev.value];
      ev := gen.Next();
    }
    written := written + [ev.value];
    TerminalAtEnd(written, planned);
    gen.Return();
  }

  /**
   * In a run's events the only terminal one is the last: a prefix that ends
   * in a terminal event, or that is the whole run, is the whole run.
   */
  lemma TerminalAtEnd(emitted: seq<CodexEvent>, planned: seq<CodexEvent>)
    requires |emitted| >= 1 && emitted <= planned && |planned| >= 1
    requires forall i :: 0 <= i < |planned| - 1 ==> !IsTerminal(planned[i])
    ensures IsTerminal(emitted[|emitted| - 1]) ==> emitted == planned
  {
    if IsTerminal(emitted[|emitted| - 1]) {
      assert emitted[|emitted| - 1] == planned[|emitted| - 1];
    }
  }
}
