/**
 * The run route and the drawer together: the frames the route writes, cut
 * into chunks in any way the network likes, are read back by the drawer as
 * exactly the events the route sent, and a closed stream leaves the new turn
 * done or failed according to the run's terminal event.
 */
module Pipeline {
  import opened Wrappers
  import opened Text
  import opened Events
  import opened Records
  import opened Drawer
  import Codex
  import RunRoute

  /** The record a frame leaves once its blank line is taken off. */
  function Record(e: CodexEvent): string {
    DataPrefix + ToJson(e)
  }

  /** The records of some events, in order. */
  function RecordsOf(es: seq<CodexEvent>): (r: seq<string>)
    ensures |r| == |es|
  {
    if es == [] then [] else [Record(es[0])] + RecordsOf(es[1..])
  }

  lemma NoNewlineNoBlankLine(s: string)
    requires NoNewline(s)
    ensures !HasBlankLine(s)
  {
    forall i | 0 <= i < |s| - 1 ensures !BlankLineAt(s, i) {
      assert s[i] != '\n';
    }
  }

  /**
   * A frame is its record followed by the separator; the record is a piece
   * the splitter keeps whole, and the drawer reads it as the event it carries.
   */
  lemma FrameRecord(v: View, id: int, e: CodexEvent, parseError: string)
    ensures ToSseEvent(e) == Record(e) + Sep
    ensures IsRecord(Record(e))
    ensures ReadRecord(v, id, Record(e), parseError) == Reading(Dispatch(v, id, e))
  {
    var j := ToJson(e);
    ToJsonShape(e);
    assert NoNewline(DataPrefix);
    NoNewlineAppend(DataPrefix, j);
    NoNewlineNoBlankLine(Record(e));
    assert Record(e)[|Record(e)| - 1] == j[|j| - 1];
    assert Record(e)[..|DataPrefix|] == DataPrefix;
    assert Record(e)[|DataPrefix|..] == j;
    ParseToJson(e);
  }

  /** The route's body, as one string, is the records framed by blank lines. */
  lemma {:induction false} WireFramed(es: seq<CodexEvent>)
    ensures Concat(RunRoute.Frames(es)) == Framed(RecordsOf(es))
    ensures AllRecords(RecordsOf(es))
  {
    if es != [] {
      WireFramed(es[1..]);
      FrameRecord(View([], Idle, false), 0, es[0], "");
      assert RecordsOf(es)[1..] == RecordsOf(es[1..]);
    }
  }

  /** Reading the records of some events dispatches exactly those events; no parse error can occur. */
  lemma {:induction false} ReadRecordsOfEvents(v: View, id: int, es: seq<CodexEvent>, parseError: string)
    ensures ReadRecords(Reading(v), id, RecordsOf(es), parseError) == Reading(DispatchAll(v, id, es))
    decreases |es|
  {
    if es != [] {
      FrameRecord(v, id, es[0], parseError);
      assert RecordsOf(es)[1..] == RecordsOf(es[1..]);
      ReadRecordsOfEvents(Dispatch(v, id, es[0]), id, es[1..], parseError);
    }
  }

  /**
   * Delivery: however the route's frames are cut into chunks, the drawer's read
   * loop ends having dispatched exactly the route's events, in order.
   */
  lemma Delivery(v: View, id: int, es: seq<CodexEvent>, chunks: seq<string>, parseError: string)
    requires Concat(chunks) == Concat(RunRoute.Frames(es))
    ensures ReadStream(Reading(v), id, "", chunks, parseError).0 == Reading(DispatchAll(v, id, es))
  {
    WireFramed(es);
    Reassembly(RecordsOf(es), chunks);
    ReadStreamRecords(Reading(v), id, "", chunks, parseError);
    ReadRecordsOfEvents(v, id, es, parseError);
  }

  /** The turn after the updates of some events, applied in order. */
  function Replay(t: Turn, es: seq<CodexEvent>): Turn
    decreases |es|
  {
    if es == [] then t else Replay(Apply(EventUpdate(es[0]), t), es[1..])
  }

  /** Replaying keeps the turn's id and prompt. */
  lemma {:induction false} ReplayKeepsId(t: Turn, es: seq<CodexEvent>)
    ensures Replay(t, es).id == t.id && Replay(t, es).prompt == t.prompt
    decreases |es|
  {
    if es != [] {
      ReplayKeepsId(Apply(EventUpdate(es[0]), t), es[1..]);
    }
  }

  /** The file changes some events report, in order. */
  function ChangesOf(es: seq<CodexEvent>): seq<Change> {
    if es == [] then []
    else (if es[0].FileChange? then [Change(es[0].path, es[0].status)] else []) + ChangesOf(es[1..])
  }

  predicate NoTerminal(es: seq<CodexEvent>) {
    forall i :: 0 <= i < |es| ==> !IsTerminal(es[i])
  }

  /**
   * Events that are not terminal keep the turn's id, prompt, status and error,
   * and append the file changes they report.
   */
  lemma {:induction false} ReplayNoTerminal(t: Turn, es: seq<CodexEvent>)
    requires NoTerminal(es)
    ensures Replay(t, es) == t.(assistant := Replay(t, es).assistant, fileChanges := t.fileChanges + ChangesOf(es))
    decreases |es|
  {
    if es == [] {
      assert t.fileChanges + [] == t.fileChanges;
    } else {
      var t' := Apply(EventUpdate(es[0]), t);
      assert !IsTerminal(es[0]);
      ReplayNoTerminal(t', es[1..]);
      assert t'.fileChanges == t.fileChanges + (if es[0].FileChange? then [Change(es[0].path, es[0].status)] else []);
    }
  }

  /** Dispatching to the last turn, whose id no earlier turn has, replays the events on it; status and done flag move only on terminal events. */
  lemma {:induction false} DispatchLastTurn(earlier: seq<Turn>, t: Turn, st: Status, done: bool, es: seq<CodexEvent>)
    requires FreshId(earlier, t.id) && NoTerminal(es)
    ensures DispatchAll(View(earlier + [t], st, done), t.id, es) == View(earlier + [Replay(t, es)], st, done)
    decreases |es|
  {
    if es != [] {
      assert !IsTerminal(es[0]);
      UpdateLastTurn(earlier, t, EventUpdate(es[0]));
      DispatchLastTurn(earlier, Apply(EventUpdate(es[0]), t), st, done, es[1..]);
    }
  }

  lemma {:induction false} DispatchAllAppend(v: View, id: int, a: seq<CodexEvent>, b: seq<CodexEvent>)
    ensures DispatchAll(v, id, a + b) == DispatchAll(DispatchAll(v, id, a), id, b)
    decreases |a|
  {
    if a == [] {
      assert a + b == b;
    } else {
      DispatchAllAppend(Dispatch(v, id, a[0]), id, a[1..], b);
      assert (a + b)[1..] == a[1..] + b;
    }
  }

  lemma {:induction false} ReplayAppend(t: Turn, a: seq<CodexEvent>, b: seq<CodexEvent>)
    ensures Replay(t, a + b) == Replay(Replay(t, a), b)
    decreases |a|
  {
    if a == [] {
      assert a + b == b;
    } else {
      ReplayAppend(Apply(EventUpdate(a[0]), t), a[1..], b);
      assert (a + b)[1..] == a[1..] + b;
    }
  }

  /** A run's events: none terminal but the last, which is. */
  predicate RunShaped(es: seq<CodexEvent>) {
    |es| >= 1 && IsTerminal(es[|es| - 1]) && forall i :: 0 <= i < |es| - 1 ==> !IsTerminal(es[i])
  }

  /** The terminal event of a run moves the turn and the drawer's status, and only done sets `receivedDone`. */
  lemma TerminalStep(earlier: seq<Turn>, t: Turn, x: CodexEvent)
    requires FreshId(earlier, t.id) && IsTerminal(x)
    ensures DispatchAll(View(earlier + [t], Running, false), t.id, [x])
      == View(earlier + [Apply(EventUpdate(x), t)], if x.Done? then Status.Done else Status.Error, x.Done?)
  {
    UpdateLastTurn(earlier, t, EventUpdate(x));
    assert [x][1..] == [];
  }

  /** The read loop over a run's events, for the drawer's new turn. */
  lemma ReadRun(earlier: seq<Turn>, t: Turn, es: seq<CodexEvent>)
    requires FreshId(earlier, t.id) && RunShaped(es)
    ensures DispatchAll(View(earlier + [t], Running, false), t.id, es)
      == View(earlier + [Replay(t, es)], if es[|es| - 1].Done? then Status.Done else Status.Error, es[|es| - 1].Done?)
  {
    var n := |es| - 1;
    var body, x := es[..n], es[n];
    assert es == body + [x];
    assert NoTerminal(body);
    DispatchAllAppend(View(earlier + [t], Running, false), t.id, body, [x]);
    DispatchLastTurn(earlier, t, Running, false, body);
    ReplayAppend(t, body, [x]);
    var t' := Replay(t, body);
    ReplayKeepsId(t, body);
    TerminalStep(earlier, t', x);
    assert Replay(t', [x]) == Replay(Apply(EventUpdate(x), t'), []);
  }

  /** The new turn after a run: done without an error, or in error, as the terminal event says. */
  lemma ReplayRun(t: Turn, es: seq<CodexEvent>)
    requires RunShaped(es) && t.error.None?
    ensures es[|es| - 1].Done? ==> Replay(t, es).status == TurnDone && Replay(t, es).error.None?
    ensures es[|es| - 1].Error? ==> Replay(t, es).status == TurnError
  {
    var n := |es| - 1;
    var body, x := es[..n], es[n];
    assert es == body + [x];
    assert NoTerminal(body);
    ReplayNoTerminal(t, body);
    ReplayAppend(t, body, [x]);
    assert Replay(Replay(t, body), [x]) == Replay(Apply(EventUpdate(x), Replay(t, body)), []);
  }

  /** The read loop over the frames of a run, from the view `handleRun` starts reading with. */
  lemma StreamedRun(earlier: seq<Turn>, t: Turn, es: seq<CodexEvent>, chunks: seq<string>, parseError: string)
    requires FreshId(earlier, t.id) && RunShaped(es)
    requires Concat(chunks) == Concat(RunRoute.Frames(es))
    ensures ReadStream(Reading(View(earlier + [t], Running, false)), t.id, "", chunks, parseError).0
      == Reading(View(earlier + [Replay(t, es)], if es[|es| - 1].Done? then Status.Done else Status.Error, es[|es| - 1].Done?))
  {
    Delivery(View(earlier + [t], Running, false), t.id, es, chunks, parseError);
    ReadRun(earlier, t, es);
  }

  /** A read loop that ends reading a view, on a closed stream: the view stays if done came, else the dropped-connection error. */
  lemma SettleStreamedClosed(b: DrawerState, id: int, chunks: seq<string>, parseError: string, v: View)
    requires ReadStream(Reading(View(b.turns, b.status, false)), id, "", chunks, parseError).0 == Reading(v)
    ensures Settle(b, id, Streamed(chunks, Closed), parseError) ==
      if v.receivedDone then b.(turns := v.turns, status := v.status)
      else Fail(b.(turns := v.turns, status := v.status), id, DroppedText)
  {
  }

  /** The catch block on the last turn, whose id no earlier turn has. */
  lemma FailLastTurn(s: DrawerState, earlier: seq<Turn>, t: Turn, message: string)
    requires FreshId(earlier, t.id) && s.turns == earlier + [t]
    ensures Fail(s, t.id, message) == s.(turns := earlier + [t.(status := TurnError, error := Some(message))], status := Status.Error)
  {
    UpdateLastTurn(earlier, t, MarkError(message));
  }

  /** The read loop and its end on a closed stream, from the state `handleRun` sets up. */
  lemma SettleClosed(s: DrawerState, now: int, es: seq<CodexEvent>, chunks: seq<string>, parseError: string)
    requires FreshId(s.turns, now) && RunShaped(es)
    requires Concat(chunks) == Concat(RunRoute.Frames(es))
    ensures var b := Begin(s, now);
      var t := Replay(NewTurn(now, Trim(s.prompt)), es);
      Settle(b, now, Streamed(chunks, Closed), parseError) ==
        if es[|es| - 1].Done? then b.(turns := s.turns + [t], status := Status.Done)
        else b.(turns := s.turns + [t.(error := Some(DroppedText))], status := Status.Error)
  {
    var b := Begin(s, now);
    var t0 := NewTurn(now, Trim(s.prompt));
    var t := Replay(t0, es);
    var done := es[|es| - 1].Done?;
    var v := View(s.turns + [t], if done then Status.Done else Status.Error, done);
    assert b.turns == s.turns + [t0] && b.status == Running;
    StreamedRun(s.turns, t0, es, chunks, parseError);
    SettleStreamedClosed(b, now, chunks, parseError, v);
    if !done {
      ReplayKeepsId(t0, es);
      ReplayRun(t0, es);
      FailLastTurn(b.(turns := v.turns, status := v.status), s.turns, t, DroppedText);
      assert t.(status := TurnError, error := Some(DroppedText)) == t.(error := Some(DroppedText));
    }
  }

  /**
   * A submitted prompt whose run's frames all arrive before the stream closes:
   * a run ending in done leaves the turn done without an error and the drawer
   * done; a run ending in an error leaves the turn and the drawer in error,
   * the turn showing the dropped-connection text, since only done sets
   * `receivedDone`. Either way the new turn replays every event of the run.
   */
  lemma ClosedRun(s: DrawerState, now: int, es: seq<CodexEvent>, chunks: seq<string>, parseError: string)
    requires Trim(s.prompt) != "" && s.status != Running && FreshId(s.turns, now)
    requires RunShaped(es)
    requires Concat(chunks) == Concat(RunRoute.Frames(es))
    ensures var r := RunResult(s, now, Streamed(chunks, Closed), parseError);
      var t := Replay(NewTurn(now, Trim(s.prompt)), es);
      && r.prompt == "" && r.activeTurn.None? && !r.userCanceled
      && (es[|es| - 1].Done? ==> r.turns == s.turns + [t] && r.status == Status.Done && t.status == TurnDone && t.error.None?)
      && (es[|es| - 1].Error? ==>
            r.turns == s.turns + [t.(error := Some(DroppedText))] && r.status == Status.Error && t.status == TurnError)
  {
    SettleClosed(s, now, es, chunks, parseError);
    ReplayRun(NewTurn(now, Trim(s.prompt)), es);
  }

  /** A run ends in done exactly when it was not refused, its thread started and the turn completed. */
  lemma RunEventsDone(busy: bool, hasThread: bool, sdk: Codex.SdkTurn)
    ensures var es := Codex.RunEvents(busy, hasThread, sdk);
      |es| >= 1 && (es[|es| - 1].Done? <==> !busy && (hasThread || sdk.startFailure.None?) && sdk.failure.None?)
  {
    var es := Codex.RunEvents(busy, hasThread, sdk);
    if !busy && (hasThread || sdk.startFailure.None?) {
      assert es[|es| - 1] == Codex.Terminal(sdk.failure);
    }
  }

  /** What a closed stream leaves: one more turn, and done or error as the last event says. */
  lemma ClosedRunShape(s: DrawerState, now: int, es: seq<CodexEvent>, chunks: seq<string>, parseError: string)
    requires Trim(s.prompt) != "" && s.status != Running && FreshId(s.turns, now)
    requires RunShaped(es)
    requires Concat(chunks) == Concat(RunRoute.Frames(es))
    ensures var r := RunResult(s, now, Streamed(chunks, Closed), parseError);
      && |r.turns| == |s.turns| + 1 && r.turns[..|s.turns|] == s.turns
      && (r.status == Status.Done <==> es[|es| - 1].Done?)
      && (r.status != Status.Done ==> r.status == Status.Error && r.turns[|s.turns|].error == Some(DroppedText))
  {
    ClosedRun(s, now, es, chunks, parseError);
    var t := Replay(NewTurn(now, Trim(s.prompt)), es);
    var last := if es[|es| - 1].Done? then t else t.(error := Some(DroppedText));
    assert (s.turns + [last])[..|s.turns|] == s.turns;
  }

  /**
   * The route and the drawer together, for a run the route starts with the
   * lock in the given state: the drawer ends done exactly when the run was not
   * refused, its thread started and the turn completed; otherwise it ends in
   * error with the dropped-connection text on the new turn.
   */
  lemma RouteToDrawer(busy: bool, hasThread: bool, sdk: Codex.SdkTurn, s: DrawerState, now: int,
                      chunks: seq<string>, parseError: string)
    requires Trim(s.prompt) != "" && s.status != Running && FreshId(s.turns, now)
    requires Concat(chunks) == Concat(RunRoute.Frames(Codex.RunEvents(busy, hasThread, sdk)))
    ensures var r := RunResult(s, now, Streamed(chunks, Closed), parseError);
      && |r.turns| == |s.turns| + 1 && r.turns[..|s.turns|] == s.turns
      && (r.status == Status.Done <==> !busy && (hasThread || sdk.startFailure.None?) && sdk.failure.None?)
      && (r.status != Status.Done ==> r.status == Status.Error && r.turns[|s.turns|].error == Some(DroppedText))
  {
    Codex.RunEventsShape(busy, hasThread, sdk);
    RunEventsDone(busy, hasThread, sdk);
    ClosedRunShape(s, now, Codex.RunEvents(busy, hasThread, sdk), chunks, parseError);
  }
}
