/**
 * The Codex drawer (components/codex-drawer.tsx): the conversation turns, the
 * per-turn reducer, the client's read loop over the event stream and the
 * cancel button. React state cells are fields updated in place; the await
 * points of `handleRun` are described by a reply scenario.
 */
module Drawer {
  import opened Wrappers
  import opened Text
  import opened Js
  import Events
  import opened Records

  const DataPrefix := "data: "
  const StartingText := "Starting Codex...\n"
  const RunFailedText := "Codex run failed."
  const CanceledText := "Run canceled."
  /** What a cancel appends to the assistant text. */
  const CanceledNotice := "\nRun canceled.\n"
  const DroppedText := "Connection dropped before completion. Please run again."
  const EmptyStreamText := "Codex response stream was empty."
  const NetworkText := "Network connection to /api/codex/run failed. Check dev server and retry."
  const CancelFailedText := "Failed to cancel run."

  datatype Change = Change(path: string, status: string)
  datatype TurnStatus = TurnRunning | TurnDone | TurnError
  datatype Status = Idle | Running | Done | Error

  datatype Turn = Turn(id: int, prompt: string, assistant: string, fileChanges: seq<Change>, status: TurnStatus, error: Option<string>)

  /** The updaters passed to `updateTurn`. */
  datatype TurnUpdate =
    | AppendAssistant(chunk: string)   // `appendAssistant`, for a plan event
    | AppendMessage(content: string)   // a message event
    | AddFileChange(change: Change)    // a file_change event
    | MarkError(message: string)       // an error event, or the catch block
    | MarkDone                         // a done event
    | MarkCanceled                     // handleCancel
    | SetError(message: string)        // a failed cancel request

  /** The text a message event leaves: a separating newline only when needed, and a trailing newline. */
  function WithMessage(assistant: string, content: string): string {
    if EndsWith(assistant, "\n") then assistant + content + "\n" else assistant + "\n" + content + "\n"
  }

  function Apply(u: TurnUpdate, t: Turn): (r: Turn)
    ensures r.id == t.id && r.prompt == t.prompt
  {
    match u
    case AppendAssistant(chunk) => t.(assistant := t.assistant + chunk)
    case AppendMessage(content) => t.(assistant := WithMessage(t.assistant, content))
    case AddFileChange(change) => t.(fileChanges := t.fileChanges + [change])
    case MarkError(message) => t.(status := TurnError, error := Some(message))
    case MarkDone => t.(status := TurnDone)
    case MarkCanceled => t.(status := TurnError, error := Some(CanceledText), assistant := t.assistant + CanceledNotice)
    case SetError(message) => t.(error := Some(message))
  }

  /** A message keeps the earlier text, adds its content on a line of its own, and ends the text with a newline. */
  lemma MessageLine(assistant: string, content: string)
    ensures var r := WithMessage(assistant, content);
      && |r| > |assistant|
      && r[..|assistant|] == assistant
      && r[|assistant|..] == (if EndsWith(assistant, "\n") then "" else "\n") + content + "\n"
      && r[|r| - 1] == '\n'
  {
    var r := WithMessage(assistant, content);
    var added := (if EndsWith(assistant, "\n") then "" else "\n") + content + "\n";
    assert r == assistant + added;
    assert r[..|assistant|] == assistant;
    assert r[|assistant|..] == added;
    assert r[|r| - 1] == added[|added| - 1];
  }

  /** `updateTurn`: the turns whose id matches are updated, every other turn and the order stay. */
  function UpdateTurn(turns: seq<Turn>, id: int, u: TurnUpdate): (r: seq<Turn>)
    ensures |r| == |turns|
    ensures forall i :: 0 <= i < |turns| ==> r[i] == if turns[i].id == id then Apply(u, turns[i]) else turns[i]
  {
    if turns == [] then []
    else
      assert forall i :: 1 <= i < |turns| ==> turns[1..][i - 1] == turns[i];
      [if turns[0].id == id then Apply(u, turns[0]) else turns[0]] + UpdateTurn(turns[1..], id, u)
  }

  predicate FreshId(turns: seq<Turn>, id: int) {
    forall i :: 0 <= i < |turns| ==> turns[i].id != id
  }

  /** Updating a turn whose id no earlier turn shares touches the last turn only. */
  lemma UpdateLastTurn(earlier: seq<Turn>, t: Turn, u: TurnUpdate)
    requires FreshId(earlier, t.id)
    ensures UpdateTurn(earlier + [t], t.id, u) == earlier + [Apply(u, t)]
  {
    var r := UpdateTurn(earlier + [t], t.id, u);
    assert forall i :: 0 <= i < |earlier| ==> r[i] == earlier[i];
  }

  /** The ids, and so the list of turns, never change shape under an update. */
  lemma UpdateTurnKeepsIds(turns: seq<Turn>, id: int, u: TurnUpdate)
    ensures forall i :: 0 <= i < |turns| ==> UpdateTurn(turns, id, u)[i].id == turns[i].id
    ensures FreshId(turns, id) ==> UpdateTurn(turns, id, u) == turns
  {
    var r := UpdateTurn(turns, id, u);
    if FreshId(turns, id) {
      assert forall i :: 0 <= i < |turns| ==> r[i] == turns[i];
    }
  }

  /** The drawer's state as the reducer sees it while reading: turns, status and `receivedDone`. */
  datatype View = View(turns: seq<Turn>, status: Status, receivedDone: bool)

  /** The turn update an event makes. */
  function EventUpdate(e: Events.CodexEvent): TurnUpdate {
    match e
    case Plan(content) => AppendAssistant(content)
    case Message(content) => AppendMessage(content)
    case FileChange(path, status) => AddFileChange(Change(path, status))
    case Error(message) => MarkError(OrElse(message, RunFailedText))
    case Done => MarkDone
  }

  /** The `if` chain of the dispatch: the turn update, then `setStatus` for error and done. */
  function Dispatch(v: View, id: int, e: Events.CodexEvent): View {
    var turns := UpdateTurn(v.turns, id, EventUpdate(e));
    match e
    case Error(_) => View(turns, Error, v.receivedDone)
    case Done => View(turns, Done, true)
    case _ => View(turns, v.status, v.receivedDone)
  }

  function DispatchAll(v: View, id: int, es: seq<Events.CodexEvent>): View
    decreases |es|
  {
    if es == [] then v else DispatchAll(Dispatch(v, id, es[0]), id, es[1..])
  }

  /** Reading either goes on, or stopped because JSON.parse threw, with the error's message. */
  datatype Progress = Reading(view: View) | Threw(view: View, message: string)

  /** One record: skipped unless it starts with "data: ", else parsed and dispatched; a parse failure throws. */
  function ReadRecord(v: View, id: int, record: string, parseError: string): Progress {
    if !StartsWith(record, DataPrefix) then Reading(v)
    else
      match Events.Parse(record[|DataPrefix|..])
      case None => Threw(v, parseError)
      case Some(e) => Reading(Dispatch(v, id, e))
  }

  /** The inner `for` loop over the complete records of one chunk; a throw ends it. */
  function ReadRecords(p: Progress, id: int, records: seq<string>, parseError: string): Progress
    decreases |records|
  {
    if p.Threw? || records == [] then p
    else ReadRecords(ReadRecord(p.view, id, records[0], parseError), id, records[1..], parseError)
  }

  /** The outer loop: feed each chunk to the buffer and read the complete records it yields. */
  function ReadStream(p: Progress, id: int, buffer: string, chunks: seq<string>, parseError: string): (Progress, string)
    decreases |chunks|
  {
    if p.Threw? || chunks == [] then (p, buffer)
    else
      var (_, complete, next) := Feed(buffer, chunks[0]);
      ReadStream(ReadRecords(p, id, complete, parseError), id, next, chunks[1..], parseError)
  }

  lemma {:induction false} ReadRecordsAppend(p: Progress, id: int, a: seq<string>, b: seq<string>, parseError: string)
    ensures ReadRecords(p, id, a + b, parseError) == ReadRecords(ReadRecords(p, id, a, parseError), id, b, parseError)
    decreases |a|
  {
    if p.Threw? {
      if b != [] { assert ReadRecords(p, id, b, parseError) == p; }
    } else if a == [] {
      assert a + b == b;
    } else {
      ReadRecordsAppend(ReadRecord(p.view, id, a[0], parseError), id, a[1..], b, parseError);
      assert (a + b)[0] == a[0] && (a + b)[1..] == a[1..] + b;
    }
  }

  lemma ReadRecordsThrew(p: Progress, id: int, records: seq<string>, parseError: string)
    requires p.Threw?
    ensures ReadRecords(p, id, records, parseError) == p
  {
  }

  /** Reading chunk by chunk is reading, in order, the records the buffer reassembles. */
  lemma {:induction false} ReadStreamRecords(p: Progress, id: int, buffer: string, chunks: seq<string>, parseError: string)
    ensures ReadStream(p, id, buffer, chunks, parseError).0 == ReadRecords(p, id, FeedAll(buffer, chunks).0, parseError)
    decreases |chunks|
  {
    if p.Threw? {
      ReadRecordsThrew(p, id, FeedAll(buffer, chunks).0, parseError);
    } else if chunks != [] {
      var f := Feed(buffer, chunks[0]);
      var q := ReadRecords(p, id, f.1, parseError);
      ReadStreamRecords(q, id, f.2, chunks[1..], parseError);
      ReadRecordsAppend(p, id, f.1, FeedAll(f.2, chunks[1..]).0, parseError);
    }
  }

  /** The drawer's state cells and refs that the modelled code reads and writes. */
  datatype DrawerState = DrawerState(prompt: string, turns: seq<Turn>, status: Status, activeTurn: Option<int>, userCanceled: bool)

  function NewTurn(id: int, prompt: string): Turn {
    Turn(id, prompt, StartingText, [], TurnRunning, None)
  }

  /** The synchronous start of `handleRun`, up to the first await. */
  function Begin(s: DrawerState, id: int): DrawerState {
    DrawerState("", s.turns + [NewTurn(id, Trim(s.prompt))], Running, Some(id), false)
  }

  /** The catch block for an ordinary error: the turn and the drawer go to error with its message. */
  function Fail(s: DrawerState, id: int, message: string): DrawerState {
    s.(turns := UpdateTurn(s.turns, id, MarkError(message)), status := Error)
  }

  /** The catch block for the abort that a user cancel causes. */
  function CatchCanceled(s: DrawerState, id: int): DrawerState {
    s.(turns := UpdateTurn(s.turns, id, MarkError(CanceledText)), status := Idle)
  }

  /** The finally block. */
  function Finally(s: DrawerState): DrawerState {
    s.(activeTurn := None, userCanceled := false, status := if s.status == Running then Idle else s.status)
  }

  /** The synchronous part of `handleCancel`, up to its await. */
  function Cancel(s: DrawerState): DrawerState {
    if s.status != Running then s
    else s.(userCanceled := true, status := Idle,
            turns := if s.activeTurn.Some? then UpdateTurn(s.turns, s.activeTurn.value, MarkCanceled) else s.turns)
  }

  /** How the response stream ends after the listed chunks were read. */
  datatype StreamEnd =
    | Closed      // reader.read() reports done
    | Broken      // reader.read() rejects with a network TypeError
    | CancelClick // the user presses cancel while a read is pending

  /** What the awaits of `handleRun` resolve to. */
  datatype RunReply =
    | FetchFailed                                  // both fetch attempts reject with a TypeError
    | CanceledWhileFetching                        // the user presses cancel before a response
    | NotOk(status: nat, error: string)            // a non-2xx response and its JSON `error`, "" if none
    | NoBody                                       // a response without a body
    | Streamed(chunks: seq<string>, end: StreamEnd)

  function HttpFailureText(status: nat, error: string): (r: string)
    ensures r != ""
    ensures error != "" ==> r == error
    ensures error == "" ==> r == "Failed to run Codex (" + NatToString(status) + ")"
  {
    OrElse(error, "Failed to run Codex (" + NatToString(status) + ")")
  }

  /** After the read loop: a parse throw, a missing done, a broken stream or a cancel. */
  function AfterStream(s: DrawerState, id: int, p: Progress, end: StreamEnd): DrawerState {
    var s' := s.(turns := p.view.turns, status := p.view.status);
    if p.Threw? then Fail(s', id, p.message)
    else match end
      case Closed => if p.view.receivedDone then s' else Fail(s', id, DroppedText)
      case Broken => Fail(s', id, NetworkText)
      case CancelClick =>
        if s'.status == Running then CatchCanceled(Cancel(s'), id)
        else if p.view.receivedDone then Cancel(s') else Fail(Cancel(s'), id, DroppedText)
  }

  /** The whole of `handleRun` for one reply scenario, with the engine's JSON.parse error message given. */
  function RunResult(s: DrawerState, now: int, reply: RunReply, parseError: string): DrawerState {
    if Trim(s.prompt) == "" || s.status == Running then s
    else
      Finally(Settle(Begin(s, now), now, reply, parseError))
  }

  /** From the first await of `handleRun` to the end of its try or catch block. */
  function Settle(b: DrawerState, id: int, reply: RunReply, parseError: string): DrawerState {
    match reply
    case FetchFailed => Fail(b, id, NetworkText)
    case CanceledWhileFetching => CatchCanceled(Cancel(b), id)
    case NotOk(status, error) => Fail(b, id, HttpFailureText(status, error))
    case NoBody => Fail(b, id, EmptyStreamText)
    case Streamed(chunks, end) =>
      AfterStream(b, id, ReadStream(Reading(View(b.turns, b.status, false)), id, "", chunks, parseError).0, end)
  }

  /** The turns are the earlier ones followed by one turn with the given id and prompt, an id no earlier turn has. */
  predicate Extends(turns: seq<Turn>, earlier: seq<Turn>, id: int, prompt: string) {
    && |turns| == |earlier| + 1 && turns[..|earlier|] == earlier && FreshId(earlier, id)
    && turns[|earlier|].id == id && turns[|earlier|].prompt == prompt
  }

  lemma UpdateKeepsExtends(turns: seq<Turn>, earlier: seq<Turn>, id: int, prompt: string, u: TurnUpdate)
    requires Extends(turns, earlier, id, prompt)
    ensures Extends(UpdateTurn(turns, id, u), earlier, id, prompt)
    ensures UpdateTurn(turns, id, u)[|earlier|] == Apply(u, turns[|earlier|])
  {
    assert turns == earlier + [turns[|earlier|]];
    UpdateLastTurn(earlier, turns[|earlier|], u);
  }

  lemma {:induction false} ReadRecordsKeepsExtends(p: Progress, id: int, records: seq<string>, parseError: string, earlier: seq<Turn>, prompt: string)
    requires Extends(p.view.turns, earlier, id, prompt)
    ensures Extends(ReadRecords(p, id, records, parseError).view.turns, earlier, id, prompt)
    decreases |records|
  {
    if !p.Threw? && records != [] {
      var q := ReadRecord(p.view, id, records[0], parseError);
      if StartsWith(records[0], DataPrefix) && Events.Parse(records[0][|DataPrefix|..]).Some? {
        UpdateKeepsExtends(p.view.turns, earlier, id, prompt, EventUpdate(Events.Parse(records[0][|DataPrefix|..]).value));
      }
      ReadRecordsKeepsExtends(q, id, records[1..], parseError, earlier, prompt);
    }
  }

  lemma {:induction false} ReadStreamKeepsExtends(p: Progress, id: int, buffer: string, chunks: seq<string>, parseError: string, earlier: seq<Turn>, prompt: string)
    requires Extends(p.view.turns, earlier, id, prompt)
    ensures Extends(ReadStream(p, id, buffer, chunks, parseError).0.view.turns, earlier, id, prompt)
    decreases |chunks|
  {
    if !p.Threw? && chunks != [] {
      var f := Feed(buffer, chunks[0]);
      ReadRecordsKeepsExtends(p, id, f.1, parseError, earlier, prompt);
      ReadStreamKeepsExtends(ReadRecords(p, id, f.1, parseError), id, f.2, chunks[1..], parseError, earlier, prompt);
    }
  }

  /** The catch, cancel and finally steps only touch the active turn. */
  lemma StepsKeepExtends(s: DrawerState, id: int, message: string, earlier: seq<Turn>, prompt: string)
    requires Extends(s.turns, earlier, id, prompt) && (s.activeTurn == Some(id) || s.activeTurn == None)
    ensures Extends(Fail(s, id, message).turns, earlier, id, prompt)
    ensures Extends(CatchCanceled(s, id).turns, earlier, id, prompt)
    ensures Extends(Cancel(s).turns, earlier, id, prompt) && Cancel(s).activeTurn == s.activeTurn
    ensures Extends(Fail(Cancel(s), id, message).turns, earlier, id, prompt)
    ensures Extends(CatchCanceled(Cancel(s), id).turns, earlier, id, prompt)
  {
    UpdateKeepsExtends(s.turns, earlier, id, prompt, MarkError(message));
    UpdateKeepsExtends(s.turns, earlier, id, prompt, MarkError(CanceledText));
    UpdateKeepsExtends(s.turns, earlier, id, prompt, MarkCanceled);
    var c := Cancel(s);
    UpdateKeepsExtends(c.turns, earlier, id, prompt, MarkError(message));
    UpdateKeepsExtends(c.turns, earlier, id, prompt, MarkError(CanceledText));
  }

  lemma AfterStreamKeepsExtends(s: DrawerState, id: int, p: Progress, end: StreamEnd, earlier: seq<Turn>, prompt: string)
    requires Extends(p.view.turns, earlier, id, prompt) && s.activeTurn == Some(id)
    ensures Extends(AfterStream(s, id, p, end).turns, earlier, id, prompt)
  {
    var s' := s.(turns := p.view.turns, status := p.view.status);
    StepsKeepExtends(s', id, if p.Threw? then p.message else if end.Broken? then NetworkText else DroppedText, earlier, prompt);
  }

  /** `handleRun` is a no-op when the trimmed prompt is empty or a run is in progress. */
  lemma RunGuard(s: DrawerState, now: int, reply: RunReply, parseError: string)
    requires Trim(s.prompt) == "" || s.status == Running
    ensures RunResult(s, now, reply, parseError) == s
  {
  }

  lemma SettleKeepsExtends(b: DrawerState, id: int, reply: RunReply, parseError: string, earlier: seq<Turn>, prompt: string)
    requires Extends(b.turns, earlier, id, prompt) && b.activeTurn == Some(id)
    ensures Extends(Settle(b, id, reply, parseError).turns, earlier, id, prompt)
  {
    match reply {
      case Streamed(chunks, end) =>
        var p := ReadStream(Reading(View(b.turns, b.status, false)), id, "", chunks, parseError).0;
        ReadStreamKeepsExtends(Reading(View(b.turns, b.status, false)), id, "", chunks, parseError, earlier, prompt);
        AfterStreamKeepsExtends(b, id, p, end, earlier, prompt);
      case FetchFailed =>
        StepsKeepExtends(b, id, NetworkText, earlier, prompt);
      case CanceledWhileFetching =>
        StepsKeepExtends(b, id, "", earlier, prompt);
      case NotOk(status, error) =>
        StepsKeepExtends(b, id, HttpFailureText(status, error), earlier, prompt);
      case NoBody =>
        StepsKeepExtends(b, id, EmptyStreamText, earlier, prompt);
    }
  }

  /**
   * A run with a fresh id appends exactly one turn, for the trimmed prompt,
   * leaves every earlier turn as it was, empties the prompt box and ends
   * with no active turn and the drawer no longer running.
   */
  lemma RunAppendsOneTurn(s: DrawerState, now: int, reply: RunReply, parseError: string)
    requires Trim(s.prompt) != "" && s.status != Running && FreshId(s.turns, now)
    ensures var r := RunResult(s, now, reply, parseError);
      Extends(r.turns, s.turns, now, Trim(s.prompt)) &&
      r.prompt == "" && r.activeTurn == None && !r.userCanceled && r.status != Running
  {
    var b := Begin(s, now);
    BeginExtends(s, now);
    SettleKeepsExtends(b, now, reply, parseError, s.turns, Trim(s.prompt));
    SettleKeepsRefs(b, now, reply, parseError);
  }

  /** Between the first await and the finally block only the turns, the status and the cancel flag move. */
  lemma SettleKeepsRefs(b: DrawerState, id: int, reply: RunReply, parseError: string)
    ensures Settle(b, id, reply, parseError).prompt == b.prompt
    ensures Settle(b, id, reply, parseError).activeTurn == b.activeTurn
  {
    match reply {
      case Streamed(chunks, end) =>
        var p := ReadStream(Reading(View(b.turns, b.status, false)), id, "", chunks, parseError).0;
        assert Settle(b, id, reply, parseError) == AfterStream(b, id, p, end);
      case _ =>
    }
  }

  lemma BeginExtends(s: DrawerState, now: int)
    requires FreshId(s.turns, now)
    ensures Extends(Begin(s, now).turns, s.turns, now, Trim(s.prompt)) && Begin(s, now).activeTurn == Some(now)
  {
    assert Begin(s, now).turns[..|s.turns|] == s.turns;
  }

  /** What the cancel request's await resolves to. */
  datatype CancelReply = CancelOk | CancelNotOk(error: string) | CancelThrew(err: Thrown)

  /** The message the cancel request's catch block records, if it fails. */
  function CancelFailure(reply: CancelReply): (r: Option<string>)
    ensures reply.CancelNotOk? ==> r.Some? && r.value != ""
    ensures r.None? <==> reply.CancelOk?
  {
    match reply
    case CancelOk => None
    case CancelNotOk(error) => Some(OrElse(error, CancelFailedText))
    case CancelThrew(err) => Some(ErrorMessageOr(err, CancelFailedText))
  }

  /** The part of `handleCancel` after its await, for the turn id it captured. */
  function CancelReplied(s: DrawerState, captured: Option<int>, reply: CancelReply): DrawerState {
    var failure := CancelFailure(reply);
    if failure.Some? && captured.Some? then s.(turns := UpdateTurn(s.turns, captured.value, SetError(failure.value)))
    else s
  }

  /**
   * A cancel while running marks the active turn canceled, adds the notice
   * to its text, stops the drawer and flags the abort as the user's; earlier
   * turns stay as they were.
   */
  lemma CancelMarksActiveTurn(s: DrawerState, earlier: seq<Turn>, prompt: string)
    requires s.status == Running && s.activeTurn.Some?
    requires Extends(s.turns, earlier, s.activeTurn.value, prompt)
    ensures var c := Cancel(s);
      && Extends(c.turns, earlier, s.activeTurn.value, prompt)
      && c.turns[|earlier|].status == TurnError && c.turns[|earlier|].error == Some(CanceledText)
      && c.turns[|earlier|].assistant == s.turns[|earlier|].assistant + CanceledNotice
      && c.status == Idle && c.userCanceled
  {
    var t := s.turns[|earlier|];
    UpdateKeepsExtends(s.turns, earlier, s.activeTurn.value, prompt, MarkCanceled);
    assert Cancel(s).turns == UpdateTurn(s.turns, s.activeTurn.value, MarkCanceled);
    assert Apply(MarkCanceled, t).assistant == t.assistant + CanceledNotice;
  }

  class CodexDrawer {
    var prompt: string
    var turns: seq<Turn>
    var status: Status
    var activeTurn: Option<int>   // activeTurnIdRef
    var userCanceled: bool        // userCanceledRef

    function State(): DrawerState
      reads this
    {
      DrawerState(prompt, turns, status, activeTurn, userCanceled)
    }

    constructor()
      ensures State() == DrawerState("", [], Idle, None, false)
    {
      prompt := "";
      turns := [];
      status := Idle;
      activeTurn := None;
      userCanceled := false;
    }

    /** The prompt box's `onChange`. */
    method SetPrompt(text: string)
      modifies this
      ensures State() == old(State()).(prompt := text)
    {
      prompt := text;
    }

    /** The catch block for an ordinary error. */
    method CatchError(id: int, message: string)
      modifies this
      ensures State() == Fail(old(State()), id, message)
    {
      turns := UpdateTurn(turns, id, MarkError(message));
      status := Error;
    }

    /** The catch block for the abort caused by a user cancel. */
    method CatchCancel(id: int)
      modifies this
      ensures State() == CatchCanceled(old(State()), id)
    {
      turns := UpdateTurn(turns, id, MarkError(CanceledText));
      status := Idle;
    }

    /** `handleCancel` up to its await; returns the turn id its continuation captured, if it went on. */
    method HandleCancel() returns (captured: Option<int>)
      modifies this
      ensures State() == Cancel(old(State()))
      ensures captured == if old(status) == Running then old(activeTurn) else None
    {
      if status != Running {
        return None;
      }
      captured := activeTurn;
      userCanceled := true;
      status := Idle;
      if captured.Some? {
        turns := UpdateTurn(turns, captured.value, MarkCanceled);
      }
    }

    /** `handleCancel` after the cancel request settles. */
    method FinishCancel(captured: Option<int>, reply: CancelReply)
      modifies this
      ensures State() == CancelReplied(old(State()), captured, reply)
    {
      var failure := CancelFailure(reply);
      if failure.Some? && captured.Some? {
        turns := UpdateTurn(turns, captured.value, SetError(failure.value));
      }
    }

    function AsProgress(receivedDone: bool, thrown: Option<string>): Progress
      reads this
    {
      if thrown.Some? then Threw(View(turns, status, receivedDone), thrown.value)
      else Reading(View(turns, status, receivedDone))
    }

    /** The `for (const line of chunks)` loop over the complete records of one chunk. */
    method ReadRecordsOf(id: int, records: seq<string>, parseError: string, doneBefore: bool) returns (receivedDone: bool, thrown: Option<string>)
      modifies this
      ensures AsProgress(receivedDone, thrown) == ReadRecords(Reading(View(old(turns), old(status), doneBefore)), id, records, parseError)
      ensures prompt == old(prompt) && activeTurn == old(activeTurn) && userCanceled == old(userCanceled)
    {
      receivedDone := doneBefore;
      thrown := None;
      var j := 0;
      while j < |records| && thrown.None?
        invariant 0 <= j <= |records|
        invariant ReadRecords(Reading(View(old(turns), old(status), doneBefore)), id, records, parseError)
               == ReadRecords(AsProgress(receivedDone, thrown), id, records[j..], parseError)
        invariant prompt == old(prompt) && activeTurn == old(activeTurn) && userCanceled == old(userCanceled)
        decreases |records| - j
      {
        var record := records[j];
        assert records[j..][0] == record && records[j..][1..] == records[j + 1..];
        if StartsWith(record, DataPrefix) {
          var parsed := Events.Parse(record[|DataPrefix|..]);
          if parsed.None? {
            thrown := Some(parseError);
          } else {
            var e := parsed.value;
            turns := UpdateTurn(turns, id, EventUpdate(e));
            if e.Error? {
              status := Error;
            } else if e.Done? {
              receivedDone := true;
              status := Done;
            }
          }
        }
        j := j + 1;
      }
    }

    /** The `while (true)` read loop: append each chunk to the buffer, split, keep the last piece. */
    method ReadBody(id: int, chunks: seq<string>, parseError: string) returns (receivedDone: bool, thrown: Option<string>)
      modifies this
      ensures AsProgress(receivedDone, thrown) == ReadStream(Reading(View(old(turns), old(status), false)), id, "", chunks, parseError).0
      ensures prompt == old(prompt) && activeTurn == old(activeTurn) && userCanceled == old(userCanceled)
    {
      var buffer := "";
      receivedDone := false;
      thrown := None;
      var i := 0;
      while i < |chunks| && thrown.None?
        invariant 0 <= i <= |chunks|
        invariant ReadStream(Reading(View(old(turns), old(status), false)), id, "", chunks, parseError).0
               == ReadStream(AsProgress(receivedDone, thrown), id, buffer, chunks[i..], parseError).0
        invariant prompt == old(prompt) && activeTurn == old(activeTurn) && userCanceled == old(userCanceled)
        decreases |chunks| - i
      {
        assert chunks[i..][0] == chunks[i] && chunks[i..][1..] == chunks[i + 1..];
        buffer := buffer + chunks[i];
        var pieces := Split(buffer);
        buffer := Last(pieces);   // `chunks.pop() || ""`: the last piece, possibly empty
        receivedDone, thrown := ReadRecordsOf(id, Init(pieces), parseError, receivedDone);
        i := i + 1;
      }
    }

    /** `handleRun` for one reply scenario; a cancel click during a read runs `handleCancel` at that point. */
    method HandleRun(now: int, reply: RunReply, parseError: string)
      modifies this
      ensures State() == RunResult(old(State()), now, reply, parseError)
    {
      var submitted := Trim(prompt);
      if submitted == "" || status == Running {
        return;
      }
      var turnId := now;
      StartTurn(turnId, submitted);
      assert State() == Begin(old(State()), now);
      AwaitReply(turnId, reply, parseError);
      RunFinally();
    }

    /** The synchronous start of `handleRun`: the new turn, the cleared prompt box, the running status. */
    method StartTurn(turnId: int, submitted: string)
      modifies this
      ensures State() == DrawerState("", old(turns) + [NewTurn(turnId, submitted)], Running, Some(turnId), false)
    {
      activeTurn := Some(turnId);
      prompt := "";
      status := Running;
      turns := turns + [NewTurn(turnId, submitted)];
      userCanceled := false;
    }

    /** The finally block of `handleRun`. */
    method RunFinally()
      modifies this
      ensures State() == Finally(old(State()))
    {
      activeTurn := None;
      userCanceled := false;
      if status == Running {
        status := Idle;
      }
    }

    /** The try block of `handleRun` from the fetch on, with its catch block. */
    method AwaitReply(turnId: int, reply: RunReply, parseError: string)
      modifies this
      ensures State() == Settle(old(State()), turnId, reply, parseError)
    {
      match reply {
        case FetchFailed =>
          CatchError(turnId, NetworkText);
        case CanceledWhileFetching =>
          var _ := HandleCancel();
          CatchCancel(turnId);
        case NotOk(code, error) =>
          CatchError(turnId, HttpFailureText(code, error));
        case NoBody =>
          CatchError(turnId, EmptyStreamText);
        case Streamed(chunks, end) =>
          var receivedDone, thrown := ReadBody(turnId, chunks, parseError);
          EndStream(turnId, receivedDone, thrown, end);
      }
    }

    /** After the read loop: the catch block for a parse error, the missing-done check, a broken stream or a cancel. */
    method EndStream(turnId: int, receivedDone: bool, thrown: Option<string>, end: StreamEnd)
      modifies this
      ensures State() == AfterStream(old(State()), turnId, old(AsProgress(receivedDone, thrown)), end)
    {
      if thrown.Some? {
        CatchError(turnId, thrown.value);
      } else {
        match end {
          case Closed =>
            if !receivedDone {
              CatchError(turnId, DroppedText);
            }
          case Broken =>
            CatchError(turnId, NetworkText);
          case CancelClick =>
            var wasRunning := status == Running;
            var _ := HandleCancel();
            if wasRunning {
              CatchCancel(turnId);   // the abort rejects the pending read
            } else if !receivedDone {
              CatchError(turnId, DroppedText);   // the click did nothing; the stream then closes
            }
        }
      }
    }
  }
}
