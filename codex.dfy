/**
 * The Codex runner (lib/codex.ts): module-level state shared by every run
 * (the lock `isRunning` and the reusable thread), the translation of raw SDK
 * events into CodexEvents, and `runCodex` as an async generator driven by
 * `next()` and `return()`.
 */
module Codex {
  import opened Wrappers
  import opened Text
  import opened Js
  import opened Events

  const BusyMessage := "A Codex run is already in progress."
  const RunFailedFallback := "Codex run failed"

  /** The `item` of an SDK event; an absent or non-string field is the empty string. */
  datatype RawItem = RawItem(kind: string, path: string, file: string, status: string, content: string)

  /** One event of the SDK's streamed turn. */
  datatype RawEvent = RawEvent(kind: string, item: Option<RawItem>, content: string, text: string)

  /**
   * What the SDK does for one run: whether starting a thread throws, the
   * events the turn streams, and whether the stream throws after them.
   */
  datatype SdkTurn = SdkTurn(startFailure: Option<Thrown>, events: seq<RawEvent>, failure: Option<Thrown>)

  predicate IsPlanEvent(e: RawEvent) { e.kind == "reasoning" || e.kind == "thinking" }
  predicate IsCompletedItem(e: RawEvent, kind: string) { e.kind == "item.completed" && e.item.Some? && e.item.value.kind == kind }
  predicate IsMessageEvent(e: RawEvent) { e.kind == "agent_message" || e.kind == "message" }

  /** The classification in the body of the `for await` loop: at most one CodexEvent per SDK event. */
  function Translate(e: RawEvent): (r: Option<CodexEvent>)
    ensures r.Some? && r.value.Plan? <==> IsPlanEvent(e)
    ensures r.Some? && r.value.FileChange? <==> IsCompletedItem(e, "file_change")
    ensures r.Some? && r.value.Message? <==> IsCompletedItem(e, "agent_message") || IsMessageEvent(e)
    ensures r.None? <==> !IsPlanEvent(e) && !IsCompletedItem(e, "file_change") && !IsCompletedItem(e, "agent_message") && !IsMessageEvent(e)
    ensures r.Some? ==> !IsTerminal(r.value)
    ensures r.Some? && r.value.FileChange? ==> r.value.path != "" && r.value.status != ""
  {
    if IsPlanEvent(e) then Some(Plan(OrElse(e.content, OrElse(e.text, ""))))
    else if IsCompletedItem(e, "file_change") then
      Some(FileChange(OrElse(e.item.value.path, OrElse(e.item.value.file, "unknown")), OrElse(e.item.value.status, "modified")))
    else if IsCompletedItem(e, "agent_message") then Some(Message(e.item.value.content))
    else if IsMessageEvent(e) then Some(Message(OrElse(e.content, OrElse(e.text, ""))))
    else None
  }

  /** The events the loop yields for a sequence of SDK events, in order. */
  function TranslateAll(es: seq<RawEvent>): seq<CodexEvent> {
    if es == [] then []
    else
      var last := Translate(es[|es| - 1]);
      TranslateAll(es[..|es| - 1]) + (if last.Some? then [last.value] else [])
  }

  lemma {:induction false} TranslateAllAppend(a: seq<RawEvent>, b: seq<RawEvent>)
    ensures TranslateAll(a + b) == TranslateAll(a) + TranslateAll(b)
    decreases |b|
  {
    if b == [] {
      assert a + b == a;
    } else {
      var b' := b[..|b| - 1];
      TranslateAllAppend(a, b');
      assert (a + b)[..|a + b| - 1] == a + b';
      assert (a + b)[|a + b| - 1] == b[|b| - 1];
    }
  }

  /** One more SDK event consumed: its translation, if any, is appended. */
  lemma TranslateAllSnoc(es: seq<RawEvent>, i: nat)
    requires i < |es|
    ensures TranslateAll(es[..i + 1]) ==
      TranslateAll(es[..i]) + (if Translate(es[i]).Some? then [Translate(es[i]).value] else [])
  {
    assert es[..i + 1][..i] == es[..i];
  }

  /** Translation yields only non-terminal events, and never more than it was given. */
  lemma {:induction false} TranslateAllBounds(es: seq<RawEvent>)
    ensures |TranslateAll(es)| <= |es|
    ensures forall i :: 0 <= i < |TranslateAll(es)| ==> !IsTerminal(TranslateAll(es)[i])
  {
    if es != [] {
      TranslateAllBounds(es[..|es| - 1]);
    }
  }

  /** The terminal event: `done` after a clean stream, else the error's message or the fallback. */
  function Terminal(failure: Option<Thrown>): (r: CodexEvent)
    ensures IsTerminal(r)
    ensures r.Done? <==> failure.None?
    ensures r.Error? ==> r.message != ""
  {
    if failure.None? then Done else Error(MessageOr(failure.value, RunFailedFallback))
  }

  /**
   * Everything one run yields when driven to the end: refused outright when
   * another run holds the lock; a single error when a needed thread cannot
   * be started; otherwise the translated events and one terminal event.
   */
  function RunEvents(busy: bool, hasThread: bool, sdk: SdkTurn): seq<CodexEvent> {
    if busy then [Error(BusyMessage)]
    else if !hasThread && sdk.startFailure.Some? then [Terminal(sdk.startFailure)]
    else TranslateAll(sdk.events) + [Terminal(sdk.failure)]
  }

  /** A run ends with exactly one terminal event, and it is the last one. */
  lemma RunEventsShape(busy: bool, hasThread: bool, sdk: SdkTurn)
    ensures |RunEvents(busy, hasThread, sdk)| >= 1
    ensures IsTerminal(RunEvents(busy, hasThread, sdk)[|RunEvents(busy, hasThread, sdk)| - 1])
    ensures forall i :: 0 <= i < |RunEvents(busy, hasThread, sdk)| - 1 ==> !IsTerminal(RunEvents(busy, hasThread, sdk)[i])
  {
    TranslateAllBounds(sdk.events);
  }

  /** The module-level state of lib/codex.ts. Threads are identified by the order they were started in. */
  class CodexModule {
    var isRunning: bool
    var activeThread: Option<nat>
    var threadsStarted: nat

    constructor()
      ensures !isRunning && activeThread == None && threadsStarted == 0
    {
      isRunning := false;
      activeThread := None;
      threadsStarted := 0;
    }

    /** `resetThread`: the next run starts a fresh thread. */
    method ResetThread()
      modifies this
      ensures activeThread == None
      ensures isRunning == old(isRunning) && threadsStarted == old(threadsStarted)
    {
      activeThread := None;
    }

    /** `isCodexRunning`. */
    method IsCodexRunning() returns (running: bool)
      ensures running == isRunning
    {
      running := isRunning;
    }
  }

  /** Where a generator is suspended. */
  datatype Phase =
    | NotStarted          // created, body not entered
    | Refused             // suspended at the busy yield
    | Streaming(pos: nat) // suspended inside the loop, `pos` SDK events consumed
    | Ended               // suspended at the terminal yield, finally block pending
    | Closed              // completed

  /** One call of `runCodex(prompt)`. The SDK turn stands for what the prompt makes the SDK do. */
  class RunGenerator {
    const codex: CodexModule
    const sdk: SdkTurn
    var phase: Phase
    ghost var startedBusy: bool
    ghost var hadThread: bool
    ghost var planned: seq<CodexEvent>
    ghost var emitted: seq<CodexEvent>

    ghost predicate Valid()
      reads this
    {
      && (phase.NotStarted? ==> emitted == [])
      && (phase.Refused? || phase.Streaming? || phase.Ended? ==> planned == RunEvents(startedBusy, hadThread, sdk))
      && emitted <= planned
      && (phase.Refused? ==> startedBusy && emitted == planned)
      && (phase.Streaming? ==>
            && !startedBusy && (hadThread || sdk.startFailure.None?)
            && phase.pos <= |sdk.events|
            && emitted == TranslateAll(sdk.events[..phase.pos]))
      && (phase.Ended? ==> !startedBusy && emitted == planned)
    }

    /** Ranks the phases so that `next()` always makes progress until the generator completes. */
    function Rank(): nat
      reads this
    {
      match phase
      case NotStarted => |sdk.events| + 3
      case Streaming(pos) => if pos <= |sdk.events| then |sdk.events| - pos + 2 else 2
      case Refused => 1
      case Ended => 1
      case Closed => 0
    }

    constructor(codex: CodexModule, sdk: SdkTurn)
      ensures Valid() && phase == NotStarted && emitted == []
      ensures this.codex == codex && this.sdk == sdk
    {
      this.codex := codex;
      this.sdk := sdk;
      phase := NotStarted;
      emitted := [];
      planned := [];
    }

    /** Prefix lemma for the loop: what has been yielded leads up to the planned events. */
    static lemma StreamedPrefix(sdk: SdkTurn, pos: nat)
      requires pos <= |sdk.events|
      ensures TranslateAll(sdk.events[..pos]) <= TranslateAll(sdk.events) + [Terminal(sdk.failure)]
    {
      TranslateAllAppend(sdk.events[..pos], sdk.events[pos..]);
      assert sdk.events[..pos] + sdk.events[pos..] == sdk.events;
    }

    /** The events of an admitted run that has, or can start, a thread. */
    static lemma PlannedWhenAdmitted(busy: bool, hasThread: bool, sdk: SdkTurn)
      requires !busy && (hasThread || sdk.startFailure.None?)
      ensures RunEvents(busy, hasThread, sdk) == TranslateAll(sdk.events) + [Terminal(sdk.failure)]
    {
    }

    /** Runs the loop from SDK event `pos` up to the next yield. */
    method Pump(pos: nat) returns (r: CodexEvent)
      requires Valid() && phase.Streaming? && phase.pos == pos
      modifies this
      ensures Valid()
      ensures emitted == old(emitted) + [r]
      ensures phase.Ended? || phase.Streaming?
      ensures phase.Ended? <==> IsTerminal(r)
      ensures Rank() < old(Rank())
      ensures startedBusy == old(startedBusy) && hadThread == old(hadThread) && planned == old(planned)
    {
      var i := pos;
      while i < |sdk.events| && Translate(sdk.events[i]).None?
        invariant pos <= i <= |sdk.events|
        invariant TranslateAll(sdk.events[..i]) == emitted
        invariant unchanged(this)
        decreases |sdk.events| - i
      {
        TranslateAllSnoc(sdk.events, i);
        i := i + 1;
      }
      PlannedWhenAdmitted(startedBusy, hadThread, sdk);
      if i < |sdk.events| {
        r := Translate(sdk.events[i]).value;
        TranslateAllSnoc(sdk.events, i);
        emitted := emitted + [r];
        phase := Streaming(i + 1);
        StreamedPrefix(sdk, i + 1);
      } else {
        r := Terminal(sdk.failure);
        assert sdk.events[..i] == sdk.events;
        emitted := emitted + [r];
        phase := Ended;
      }
    }

    /** The first `next()`: the lock check, the thread, and the body up to its first yield. */
    method Enter() returns (r: CodexEvent)
      requires Valid() && phase.NotStarted?
      modifies this, codex
      ensures Valid()
      ensures emitted == [r]
      ensures phase.Streaming? || phase.Ended? || phase.Refused?
      ensures phase.Ended? || phase.Refused? <==> IsTerminal(r)
      ensures Rank() < old(Rank())
      ensures startedBusy == old(codex.isRunning) && hadThread == old(codex.activeThread).Some?
      ensures codex.isRunning
      ensures !old(codex.isRunning) && old(codex.activeThread).None? && sdk.startFailure.None? ==>
        codex.activeThread == Some(old(codex.threadsStarted)) && codex.threadsStarted == old(codex.threadsStarted) + 1
      ensures !(!old(codex.isRunning) && old(codex.activeThread).None? && sdk.startFailure.None?) ==>
        codex.activeThread == old(codex.activeThread) && codex.threadsStarted == old(codex.threadsStarted)
    {
      startedBusy := codex.isRunning;
      hadThread := codex.activeThread.Some?;
      planned := RunEvents(startedBusy, hadThread, sdk);
      if codex.isRunning {
        r := Error(BusyMessage);
        emitted := [r];
        phase := Refused;
      } else {
        codex.isRunning := true;
        if codex.activeThread.None? && sdk.startFailure.Some? {
          r := Terminal(sdk.startFailure);
          emitted := [r];
          phase := Ended;
        } else {
          if codex.activeThread.None? {
            codex.activeThread := Some(codex.threadsStarted);
            codex.threadsStarted := codex.threadsStarted + 1;
          }
          phase := Streaming(0);
          assert sdk.events[..0] == [];
          StreamedPrefix(sdk, 0);
          r := Pump(0);
        }
      }
    }

    /** `next()`: resumes the body up to its next yield, or completes it. */
    method Next() returns (r: Option<CodexEvent>)
      requires Valid()
      modifies this, codex
      ensures Valid()
      ensures r.Some? ==> emitted == old(emitted) + [r.value]
      ensures r.None? <==> old(phase).Refused? || old(phase).Ended? || old(phase).Closed?
      ensures r.None? ==> emitted == old(emitted) && phase == Closed
      ensures r.Some? ==> (phase.Ended? || phase.Refused? <==> IsTerminal(r.value))
      ensures r.Some? ==> phase.Streaming? || phase.Ended? || phase.Refused?
      ensures Rank() < old(Rank()) || old(phase).Closed?
      ensures old(phase).NotStarted? ==> startedBusy == old(codex.isRunning) && hadThread == old(codex.activeThread).Some?
      ensures !old(phase).NotStarted? ==> startedBusy == old(startedBusy) && hadThread == old(hadThread) && planned == old(planned)
      // the lock: taken by an admitted first step, released by the step after the terminal event
      ensures codex.isRunning ==
        if old(phase).NotStarted? then true
        else if old(phase).Ended? then false
        else old(codex.isRunning)
      // the thread: started only when an admitted run has none
      ensures old(phase).NotStarted? && !old(codex.isRunning) && old(codex.activeThread).None? && sdk.startFailure.None? ==>
        codex.activeThread == Some(old(codex.threadsStarted)) && codex.threadsStarted == old(codex.threadsStarted) + 1
      ensures !(old(phase).NotStarted? && !old(codex.isRunning) && old(codex.activeThread).None? && sdk.startFailure.None?) ==>
        codex.activeThread == old(codex.activeThread) && codex.threadsStarted == old(codex.threadsStarted)
    {
      match phase
      case NotStarted =>
        var e := Enter();
        r := Some(e);
      case Streaming(pos) =>
        var e := Pump(pos);
        r := Some(e);
      case Refused =>
        r := None;
        phase := Closed;
      case Ended =>
        codex.isRunning := false;
        r := None;
        phase := Closed;
      case Closed =>
        r := None;
    }

    /** `return()`: completes the generator, running the finally block when the body is inside the try. */
    method Return()
      requires Valid()
      modifies this, codex
      ensures Valid() && phase == Closed && emitted == old(emitted)
      ensures codex.isRunning == if old(phase).Streaming? || old(phase).Ended? then false else old(codex.isRunning)
      ensures codex.activeThread == old(codex.activeThread) && codex.threadsStarted == old(codex.threadsStarted)
    {
      if phase.Streaming? || phase.Ended? {
        codex.isRunning := false;
      }
      phase := Closed;
    }
  }

  /**
   * Two runs on the same module: while the first is streaming, the second is
   * refused with the lock's message and leaves the lock with the first.
   */
  method ConcurrentRuns(first: SdkTurn, second: SdkTurn) returns (a: Option<CodexEvent>, b: Option<CodexEvent>, lockedDuring: bool, lockedAfter: bool)
    ensures b == Some(Error(BusyMessage))
    ensures lockedDuring && !lockedAfter
  {
    var codex := new CodexModule();
    var g1 := new RunGenerator(codex, first);
    a := g1.Next();
    var g2 := new RunGenerator(codex, second);
    b := g2.Next();
    assert g2.planned == [Error(BusyMessage)];
    assert [b.value] <= g2.planned;
    assert b.value == [b.value][0] == g2.planned[0];
    var c := g2.Next();
    lockedDuring := codex.IsCodexRunning();
    g1.Return();
    lockedAfter := codex.IsCodexRunning();
  }
}
