# ask-luigi: the Codex run pipeline, the git routes and the cart

This project models the logic of the ask-luigi web shop. It covers two parts.

The first part is the "Ask Codex" editing loop:
- the Codex runner with its lock and reusable thread (`lib/codex.ts`);
- the run route that frames events as `data: <json>\n\n` records (`app/api/codex/run/route.ts`, `lib/events.ts`);
- the drawer in the browser that splits the stream back into records and folds them into conversation turns (`components/codex-drawer.tsx`);
- the git helpers and the branch and deploy routes that sit behind the same lock (`lib/git.ts`, `app/api/git/*/route.ts`).

The second part is the shop:
- the cart reducer and its restore-time sanitiser (`components/cart-provider.tsx`), over the catalog table (`data/headphones.ts`);
- the order route's validation (`app/api/orders/route.ts`);
- the checkout payload that connects the two (`app/site/checkout/page.tsx`).

Each module has one `.dfy` file. Shared JavaScript semantics live in `js.dfy`: truthiness, property reads that throw on `null`, `Number()`, and `err.message || fallback`. Strings live in `text.dfy`: `trim`, `startsWith`, `slice`, and decimal digits.

## How the model is shaped

**The Codex runner.** The module-level state (`isRunning`, `activeThread`) is the class `Codex.CodexModule`. The SDK is not code this model can see. One run of it is described by an `SdkTurn`:
- whether `startThread` throws;
- the raw events the turn streams;
- whether the stream throws after them.

A thread is named by the order it was started in.

`runCodex` is an async generator. `Codex.RunGenerator` models one call of it, driven by `Next` and `Return` as the generator protocol drives it. The body starts at the first `next()`, as in JavaScript.

The specification function `Codex.RunEvents` gives everything the run yields. `RunRoute.Stream`, the route's `for await` loop, is proved to write exactly those events.

**Framing.** `JSON.stringify` of the five event shapes is modelled concretely (`Events.ToJson`), with ECMAScript's string escaping. `Events.Parse` is `JSON.parse` for that layout, proved to be its inverse. The route's inline template and `toSseEvent` are the same text. Both are `Events.ToSseEvent`.

**The splitter.** The drawer's `buffer.split("\n\n")` / `pop()` step is `Records.Split` / `Records.Feed`. The whole read loop over a sequence of chunks is `Records.FeedAll`. Its buffer invariant is proved, and so is the reassembly theorem: any chunking of the framed records yields exactly those records.

**The drawer.** The drawer's state cells and refs are the fields of the class `Drawer.CodexDrawer`. `handleRun` is one method over a reply scenario (`Drawer.RunReply`), which says what its awaits resolve to:
- the fetch fails, or the user cancels before a response;
- a non-2xx response, or a response without a body;
- the chunks read, and how the stream ends.

`JSON.parse`'s `SyntaxError` message is a parameter.

**The end-to-end result.** `Pipeline.RouteToDrawer` connects runner, route, transport and drawer. It proves how the drawer's new turn ends for any SDK behaviour and any chunking of the bytes:
- it ends `done` exactly when the run was admitted and the SDK did not fail;
- in every other case it ends in `error` with "Connection dropped before completion. Please run again.".

The drawer only sets `receivedDone` on a `done` record (components/codex-drawer.tsx:158-163). So after an `error` record, the check at lines 167-169 throws, and the catch block replaces the error event's own message.

**Git and the repository.** The git repository is the class `Git.Repository` with a log of the commands issued. A command's rejection is given as `Failure(step, err)`. The specification functions `Git.CreateRun` and `Git.DeployRun` give the reply and the commands issued.

**The cart.** The cart's `items` state cell is the class `Cart.CartProvider`. Each `setItems` updater is a pure function beside it.

## Model

| member | source | states |
|---|---|---|
| Events.ParseToJson | lib/events.ts:1-10 | Parsing the JSON text of any event gives that event back, for all five shapes and any string contents (escapes included) |
| Events.ToJsonInjective | lib/events.ts:1-6 | Two events with the same JSON text are the same event |
| Events.ToJsonShape | lib/events.ts:8-10 | The JSON text of an event has no raw newline and ends with `}` |
| Events.FrameShape | lib/events.ts:8-10 | A frame starts with `data: `, ends with a blank line, and that final blank line is the only one in it |
| Codex.Translate | lib/codex.ts:54-80 | A raw event yields a plan iff it is reasoning/thinking; a file_change iff it is a completed file_change item; a message iff it is a completed agent_message item or a top-level agent_message/message event; nothing for every other event; never a terminal event; file_change path and status are never empty ("unknown"/"modified" fallbacks) |
| Codex.TranslateAllAppend | lib/codex.ts:54-80 | Translation works event by event: the output for a concatenation of raw events is the concatenation of the outputs, so output order is raw-event order |
| Codex.TranslateAllBounds | lib/codex.ts:54-80 | At most one output event per raw event, and none of them is terminal |
| Codex.Terminal | lib/codex.ts:82-84 | The closing event is terminal: `done` iff the stream did not throw, otherwise an `error` with a non-empty message (`err.message` or "Codex run failed") |
| Codex.RunEventsShape | lib/codex.ts:32-88 | Every run yields at least one event, its last event is terminal and no earlier event is |
| Codex.CodexModule.constructor | lib/codex.ts:4-6 | The module starts unlocked with no thread |
| Codex.CodexModule.ResetThread | lib/codex.ts:93-95 | Clears the thread and leaves the lock as it was |
| Codex.CodexModule.IsCodexRunning | lib/codex.ts:100-102 | Returns exactly the lock flag |
| Codex.RunGenerator.constructor | lib/codex.ts:32 | A new generator has not started its body and has yielded nothing |
| Codex.RunGenerator.Enter | lib/codex.ts:33-52 | The first step: a locked module gets the busy error and the lock is left held by its owner; otherwise the lock is taken and a thread is started only when there is none and starting succeeds |
| Codex.RunGenerator.Pump | lib/codex.ts:54-84 | One turn of the loop: yields the next translated event, or the terminal once the raw events run out; the rank decreases; the terminal is yielded iff the generator is now at its end |
| Codex.RunGenerator.Next | lib/codex.ts:32-88 | `next()`: yields one more event of RunEvents (what was yielded so far is always a prefix of it) or reports completion; the lock is taken by an admitted first step and released by the step after the terminal event (the finally block); the thread changes only when an admitted run has none |
| Codex.RunGenerator.Return | lib/codex.ts:85-87 | `return()` closes the generator, running the finally block (releasing the lock) only when the body was inside the try |
| Codex.ConcurrentRuns | lib/codex.ts:33-38 | A second run started while the first is streaming is refused with "A Codex run is already in progress."; the lock is held during the first run and released after it |
| RunRoute.Post | app/api/codex/run/route.ts:4-43 | A falsy or non-string prompt gets 400 `{"error":"prompt is required"}` without touching the runner; otherwise 200 with the event-stream headers and a body carrying the run's events cut after the first terminal one |
| RunRoute.Stream | app/api/codex/run/route.ts:15-35 | The `for await` loop over the real generator writes exactly RunEvents, and afterwards the lock is as it was before |
| RunRoute.FramesAt | app/api/codex/run/route.ts:18-20 | The i-th frame written is `data: ` + JSON of the i-th event + blank line: one frame per event, in order |
| RunRoute.TransportStopsAtTerminal | app/api/codex/run/route.ts:22-26 | Whatever follows the first terminal event, or a later throw, is never written |
| RunRoute.TransportThrowEnds | app/api/codex/run/route.ts:28-33 | A producer without a terminal event that throws gets one final "Stream failed" error; one that just ends is closed without an added event |
| RunRoute.TransportRun | app/api/codex/run/route.ts:18-28 | With the real runner nothing is cut: every event of a run reaches the wire (for the thrown values the model has; see "## Left out") |
| RunRoute.Transport | app/api/codex/run/route.ts:16-34 | The frames written are the produced events in order, with no terminal event before the last frame; at most one event is added, and only when the producer throws, as the "Stream failed" error |
| RunRoute.TerminalAtEnd | app/api/codex/run/route.ts:22-26 | A prefix of a run's events that ends in a terminal event is the whole run |
| Records.Split | components/codex-drawer.tsx:125 | `split` always returns at least one piece |
| Records.SplitJoin | components/codex-drawer.tsx:125 | Joining the pieces of `split("\n\n")` with the separator gives back the text |
| Records.SplitPieces | components/codex-drawer.tsx:125-126 | Every piece but the last is a complete record (no blank line inside, no trailing newline) and the kept buffer has no blank line |
| Records.SplitFramed | components/codex-drawer.tsx:125-126 | Splitting framed records followed by any text yields those records, then the pieces of the text |
| Records.BufferInvariantSplit | components/codex-drawer.tsx:124-126 | The buffer invariant determines the records and the buffer: they are the pieces of all text received |
| Records.FeedKeepsInvariant | components/codex-drawer.tsx:124-126 | After each chunk, the records processed so far, framed, followed by the buffer, equal all text received, and the buffer holds no blank line |
| Records.FeedAllInvariant | components/codex-drawer.tsx:120-126 | The invariant holds over any sequence of chunks |
| Records.Reassembly | components/codex-drawer.tsx:120-130 | However framed records are cut into chunks, the loop hands over exactly those records, in order, and leaves an empty buffer |
| Drawer.UpdateTurn | components/codex-drawer.tsx:42-49 | Only the turns with the given id are updated; the length and order of the list and every other turn are unchanged |
| Drawer.UpdateLastTurn | components/codex-drawer.tsx:42-49 | Updating the newest turn, whose id no earlier turn has, leaves all earlier turns as they were |
| Drawer.UpdateTurnKeepsIds | components/codex-drawer.tsx:42-49 | Ids are kept, and an id no turn has changes nothing |
| Drawer.Apply | components/codex-drawer.tsx:51-53 | No updater changes a turn's id or prompt |
| Drawer.MessageLine | components/codex-drawer.tsx:136-142 | A message keeps the earlier text as a prefix, adds a newline before the content only when the text does not already end in one, and leaves the text ending in a newline |
| Drawer.ReadRecordsAppend | components/codex-drawer.tsx:128-130 | The record loop over two batches is the loop over the first, then the second |
| Drawer.ReadRecordsThrew | components/codex-drawer.tsx:131 | Once `JSON.parse` has thrown, no further record is processed |
| Drawer.ReadStreamRecords | components/codex-drawer.tsx:120-165 | The read loop over the chunks dispatches exactly the records the splitter yields for those chunks |
| Drawer.HttpFailureText | components/codex-drawer.tsx:106-109 | The message for a non-2xx reply is the server's `error` when that is a non-empty string, and otherwise exactly "Failed to run Codex (status)"; it is never empty |
| Drawer.RunGuard | components/codex-drawer.tsx:56-57 | `handleRun` changes nothing when the trimmed prompt is empty or a run is in progress |
| Drawer.BeginExtends | components/codex-drawer.tsx:59-73 | Starting a run appends one turn with the new id and the trimmed prompt after the earlier turns |
| Drawer.StepsKeepExtends | components/codex-drawer.tsx:170-193 | The catch blocks and a cancel only touch the run's own turn |
| Drawer.SettleKeepsExtends | components/codex-drawer.tsx:85-193 | Whatever the fetch and the stream do, the earlier turns stay as they were and the run's turn stays last with its id and prompt |
| Drawer.RunAppendsOneTurn | components/codex-drawer.tsx:55-201 | A run that passes the guard ends with the earlier turns followed by exactly one new turn, an empty prompt box, no active turn, the cancel flag cleared and a status other than running |
| Drawer.CancelMarksActiveTurn | components/codex-drawer.tsx:203-219 | A cancel while running marks the active turn as error "Run canceled.", appends "\nRun canceled.\n" to its text, sets the drawer idle and flags the abort as the user's; other turns are unchanged |
| Drawer.CancelFailure | components/codex-drawer.tsx:221-228 | The cancel request's failure message is absent iff the reply was ok, and present and non-empty for a non-ok response |
| Drawer.CodexDrawer.constructor | components/codex-drawer.tsx:29-35 | Empty prompt, no turns, idle, no active turn |
| Drawer.CodexDrawer.SetPrompt | components/codex-drawer.tsx:312 | Typing sets the prompt and nothing else |
| Drawer.CodexDrawer.HandleRun | components/codex-drawer.tsx:55-201 | The new state is the one the run's specification gives for that reply scenario |
| Drawer.CodexDrawer.StartTurn | components/codex-drawer.tsx:59-73 | The synchronous start: clears the prompt, sets running and the active turn, appends the new turn |
| Drawer.CodexDrawer.AwaitReply | components/codex-drawer.tsx:85-193 | The try/catch of the run, for the reply scenario |
| Drawer.CodexDrawer.ReadRecordsOf | components/codex-drawer.tsx:128-164 | The inner loop over one chunk's records updates turns and status as the record fold does, and reports `receivedDone` and any parse error |
| Drawer.CodexDrawer.ReadBody | components/codex-drawer.tsx:115-165 | The `while` read loop over the chunks ends in the state the stream fold gives |
| Drawer.CodexDrawer.EndStream | components/codex-drawer.tsx:167-193 | After the loop: a parse error, a missing `done`, a broken connection or a user cancel, each handled as the catch block does |
| Drawer.CodexDrawer.RunFinally | components/codex-drawer.tsx:194-200 | Clears the active turn and the cancel flag; running becomes idle and any other status stays |
| Drawer.CodexDrawer.CatchError | components/codex-drawer.tsx:184-192 | An ordinary error marks the turn and the drawer as error with its message |
| Drawer.CodexDrawer.CatchCancel | components/codex-drawer.tsx:171-182 | The user's abort marks the turn "Run canceled." and the drawer idle |
| Drawer.CodexDrawer.HandleCancel | components/codex-drawer.tsx:203-219 | No-op unless running; otherwise the cancel effects, returning the active turn captured for the later error |
| Drawer.CodexDrawer.FinishCancel | components/codex-drawer.tsx:221-232 | A failed cancel request writes its message on the captured turn; a successful one changes nothing |
| Pipeline.FrameRecord | components/codex-drawer.tsx:128-131 | A frame is its record plus the separator, the record is complete, and reading it dispatches exactly its event |
| Pipeline.WireFramed | app/api/codex/run/route.ts:18-20 | The concatenated frames of some events are those events' records joined by blank lines, and each is a complete record |
| Pipeline.ReadRecordsOfEvents | components/codex-drawer.tsx:128-164 | Reading the records of some events dispatches those events in order, and nothing throws |
| Pipeline.Delivery | components/codex-drawer.tsx:120-165 | Any chunking of the route's bytes makes the drawer dispatch exactly the route's events, in order |
| Pipeline.DispatchLastTurn | components/codex-drawer.tsx:132-150 | Non-terminal events only change the run's own turn, and leave the drawer's status alone |
| Pipeline.ReplayNoTerminal | components/codex-drawer.tsx:143-150 | Non-terminal events append the file changes in event order and change nothing but the text and the changes |
| Pipeline.TerminalStep | components/codex-drawer.tsx:151-163 | An error record sets turn and drawer to error, a done record to done, and only done sets `receivedDone` |
| Pipeline.ReadRun | components/codex-drawer.tsx:120-165 | Reading a whole run leaves the earlier turns untouched and sets the drawer's status from the run's last event |
| Pipeline.ReplayRun | components/codex-drawer.tsx:151-163 | A run ending in done leaves its turn done without error; one ending in error leaves it in error |
| Pipeline.StreamedRun | components/codex-drawer.tsx:115-165 | Any chunking of a run's frames leaves the drawer in the state the run's events give |
| Pipeline.SettleClosed | components/codex-drawer.tsx:115-192 | After a closed stream the new turn is the replayed one with status done, or, without done, in error with the connection-dropped message |
| Pipeline.ClosedRun | components/codex-drawer.tsx:55-201 | The whole `handleRun` for a closed stream of a run: the new turn, the status, and the cleared prompt, active turn and cancel flag |
| Pipeline.RunEventsDone | lib/codex.ts:32-88 | A run's last event is done iff the run was admitted, had or could start a thread, and the SDK stream did not throw |
| Pipeline.ClosedRunShape | components/codex-drawer.tsx:55-201 | The drawer ends done iff the run's last event is done; otherwise error with the connection-dropped message on the new turn |
| Pipeline.RouteToDrawer | components/codex-drawer.tsx:120-193 | End to end: for any SDK behaviour and any chunking, the drawer ends done iff the run was admitted and succeeded, and otherwise in error with the connection-dropped message on its one new turn |
| Git.BranchName | lib/git.ts:27 | The branch name starts with `codex/` and has more after it |
| Git.CommitMessage | lib/git.ts:28 | The message is `codex: ` followed by exactly the first min(80, length) characters of the prompt, so the whole prompt when it fits; lengths count characters (see "## Left out") |
| Git.Attempted | lib/git.ts:30-33 | The commands issued are a prefix of the planned ones, stopping at the first rejection |
| Git.Settled | lib/git.ts:30-35 | The call returns its value iff no issued command rejected, and otherwise rejects with that command's error |
| Git.CreateRun | lib/git.ts:24-36 | While running: rejected with "Cannot perform git operations while Codex is running." and no command; otherwise checkout -b, add ".", commit, push --set-upstream in that order up to the first failure, returning `{branch, commitMessage}` only when all succeed |
| Git.DeployRun | lib/git.ts:38-50 | The running check first, then "Invalid branch for deploy." for "", "main" and "master", both with no command; otherwise checkout main, merge, push main in order up to the first failure, returning `{merged, target: "main"}` only when all succeed |
| Git.MergeOnlyWhenAllowed | lib/git.ts:39-47 | A merge is issued only for a deployable branch with no run active, and main is pushed only after the whole sequence was issued |
| Git.Repository.Execute | lib/git.ts:30-33 | A command is appended to the log and its reply returned |
| Git.Repository.CreateBranchAndCommit | lib/git.ts:24-36 | Returns CreateRun's reply and appends exactly its commands to the log |
| Git.Repository.DeployToMain | lib/git.ts:38-50 | Returns DeployRun's reply and appends exactly its commands to the log |
| Git.AssertNotRunning | lib/git.ts:6-10 | Throws "Cannot perform git operations while Codex is running." iff a run holds the lock |
| Git.Paths | lib/git.ts:17 | The dirty list is the file paths in order |
| Git.StatusOf | lib/git.ts:12-22 | The branch is the current one, dirty is the paths in order, lastCommit is null iff there is no commit and otherwise its message with the hash cut to its first 7 characters |
| DeployRoute.Post | app/api/git/deploy/route.ts:5-20 | 400 "branch is required" for a falsy or non-string branch with no git command; 200 with the deploy result and the thread reset on success; 500 with `err.message` or "Failed to deploy" and the thread kept on failure; the lock is never changed |
| BranchRoute.Post | app/api/git/branch/route.ts:4-17 | 400 "prompt is required" with no git command; 200 with the result; 500 with `err.message` or "Failed to create branch"; never touches the thread or the lock |
| Cart.ClampQuantity | components/cart-provider.tsx:49 | `Math.max(1, Math.floor(q))` is the floor of q when q is at least 1, and exactly 1 when q is below 1 |
| Cart.ReadEntries | components/cart-provider.tsx:36-38 | Reading the fields throws iff some entry is null or undefined, and otherwise gives each entry's `Number()` pair in order |
| Cart.KeepEntry | components/cart-provider.tsx:40-50 | An entry is kept iff both numbers are finite and the id is in the catalog, as that headphone with the clamped quantity |
| Cart.KeepEntries | components/cart-provider.tsx:35-51 | The map gives one result per entry, in order |
| Cart.KeepEntriesSane | components/cart-provider.tsx:40-50 | Every kept entry is a catalog headphone with quantity at least 1 |
| Cart.PresentAppend | components/cart-provider.tsx:52 | The null filter keeps the survivors in their input order |
| Cart.PresentAll | components/cart-provider.tsx:52 | The filter keeps every entry when none is null |
| Cart.PresentNone | components/cart-provider.tsx:52 | The filter of all-null entries is empty |
| Cart.PresentSane | components/cart-provider.tsx:52 | Filtering keeps sanity |
| Cart.Present | components/cart-provider.tsx:52 | `.filter((item) => item !== null)` keeps at most as many items as there were entries; which ones, and in what order, PresentAll, PresentNone and PresentAppend state |
| Cart.SanitizeCartItems | components/cart-provider.tsx:32-53 | A non-array gives []; an array throws iff some entry is null or undefined; the result is catalog items with quantities at least 1 and no longer than the input |
| Cart.ReadEntriesAppend | components/cart-provider.tsx:36-38 | Reading the fields of two lists that do not throw, joined, gives the two readings joined |
| Cart.NoneThrows | components/cart-provider.tsx:36-38 | Joining two lists none of whose entries throws gives a list none of whose entries throws |
| Cart.KeepEntriesAppend | components/cart-provider.tsx:39-50 | The map callback over two joined lists is the two mapped lists joined |
| Cart.SanitizeRead | components/cart-provider.tsx:32-53 | An array with no throwing entry restores to the present kept entries of its reading |
| Cart.SanitizeAppend | components/cart-provider.tsx:32-53 | The sanitizer works entry by entry: the cart of two joined lists is the two carts joined, in order |
| Cart.SanitizeSingle | components/cart-provider.tsx:32-53 | A single entry throws iff it is null or undefined; otherwise it restores to exactly its kept item, or to nothing when its numbers are not finite or its id is not in the catalog |
| Cart.SetQuantity | components/cart-provider.tsx:92-96 | Only the lines with the id change quantity; length and order are kept |
| Cart.AddItem | components/cart-provider.tsx:82-98 | An id outside the catalog changes nothing; a new id is appended with quantity 1; an existing id gains one unit and every other line is unchanged |
| Cart.RemoveItem | components/cart-provider.tsx:100-102 | No line with the id is left and the cart does not grow |
| Cart.RemoveMembers | components/cart-provider.tsx:100-102 | The lines left are exactly the lines without the id |
| Cart.RemoveAppend | components/cart-provider.tsx:100-102 | The filter keeps the remaining lines in order |
| Cart.UpdateItem | components/cart-provider.tsx:104-118 | A quantity of at most 0 removes the id's lines and keeps the rest; otherwise only the id's lines get `max(1, floor(q))`, order kept |
| Cart.SetQuantityAbsent | components/cart-provider.tsx:92-96 | An id not in the cart leaves the map unchanged |
| Cart.RemoveAbsent | components/cart-provider.tsx:100-102 | Removing an id not in the cart changes nothing |
| Cart.UpdateAbsent | components/cart-provider.tsx:104-118 | Updating an id not in the cart changes nothing |
| Cart.SetQuantityKeeps | components/cart-provider.tsx:92-96 | Setting a quantity of at least 1 keeps ids distinct and the cart sane |
| Cart.RemoveKeeps | components/cart-provider.tsx:100-102 | Removing keeps the cart well formed |
| Cart.RemoveDistinct | components/cart-provider.tsx:100-102 | Removing keeps ids distinct |
| Cart.AddKeeps | components/cart-provider.tsx:82-98 | Adding keeps the cart well formed (distinct ids, catalog items, quantities at least 1) |
| Cart.AppendKeeps | components/cart-provider.tsx:89 | Appending a new catalog id with quantity 1 keeps the cart well formed |
| Cart.UpdateKeeps | components/cart-provider.tsx:104-118 | Updating keeps the cart well formed |
| Cart.TotalsPositive | components/cart-provider.tsx:124-129 | A sane cart has at least one unit per line and a positive subtotal when non-empty; the empty cart has count and subtotal 0 |
| Cart.ItemCount | components/cart-provider.tsx:125 | The `itemCount` reduce is 0 for an empty cart and at least the number of lines when every quantity is at least 1 |
| Cart.Subtotal | components/cart-provider.tsx:126-129 | The `subtotal` reduce is 0 for an empty cart; with positive prices and quantities of at least 1 it is non-negative, and 0 only for the empty cart |
| Cart.TotalsAppend | components/cart-provider.tsx:124-129 | A new line adds its quantity to the count and price × quantity to the subtotal |
| Cart.AddTotals | components/cart-provider.tsx:82-98 | Adding a catalog item raises the count by 1 and the subtotal by its price |
| Cart.IncrementTotals | components/cart-provider.tsx:92-96 | Bumping an existing line raises the count by 1 and the subtotal by its price |
| Cart.CartProvider.constructor | components/cart-provider.tsx:56 | The cart starts empty |
| Cart.CartProvider.AddToCart | components/cart-provider.tsx:82-98 | Replaces the items by AddItem's and keeps the cart well formed |
| Cart.CartProvider.RemoveFromCart | components/cart-provider.tsx:100-102 | Replaces the items by RemoveItem's and keeps the cart well formed |
| Cart.CartProvider.UpdateQuantity | components/cart-provider.tsx:104-118 | Replaces the items by UpdateItem's and keeps the cart well formed |
| Cart.CartProvider.ClearCart | components/cart-provider.tsx:120-122 | Empties the cart: count and subtotal 0 |
| Cart.CartProvider.Restore | components/cart-provider.tsx:58-69 | Loads the sanitized stored cart, or [] when sanitizing throws; the result is always sane |
| Catalog.CatalogWellFormed | data/headphones.ts:14-170 | Catalog ids are distinct and every price is positive |
| Catalog.FindIn | components/cart-provider.tsx:44 | `find` returns an entry with that id, and nothing iff no entry has it |
| Catalog.Find | components/cart-provider.tsx:83 | The catalog lookup returns an entry with that id, and nothing iff no entry has it |
| Catalog.FindInMember | components/cart-provider.tsx:44 | With distinct ids, looking up an entry's id finds that entry |
| Catalog.ListedIff | data/headphones.ts:14-170 | A headphone is found by its id iff it is in the catalog |
| Catalog.ListedPositive | data/headphones.ts:14-170 | A listed headphone has a positive price |
| Orders.IsValidItemIff | app/api/orders/route.ts:23-32 | An item is valid iff it is a plain object whose headphoneId is a finite number and whose quantity is a whole number of at least 1 |
| Orders.IsValidItemsRefuses | app/api/orders/route.ts:21-33 | A non-array, an empty array, or an array with one invalid item is refused |
| Orders.IsValidItem | app/api/orders/route.ts:23-32 | The `every` callback accepts only plain objects (the exact condition is IsValidItemIff) |
| Orders.IsValidItems | app/api/orders/route.ts:21-33 | `isValidItems` accepts only a non-empty array whose every element is a plain object |
| Orders.Post | app/api/orders/route.ts:69-123 | Guards in order: a blank trimmed name/email/address gives 400 "name, email, and address are required", then invalid items 400 "items must be a non-empty array", then a non-finite or non-positive subtotal 400 "subtotal must be a positive number"; a row is stored iff all pass and the insert succeeds, answered with status 200 and `{id, ok: true}`; a failed insert is a 500 with its message |
| Orders.TrimClean | app/api/orders/route.ts:72-75 | A non-empty trimmed field has no surrounding whitespace |
| Orders.PostStoresValidRows | app/api/orders/route.ts:79-117 | Every stored row has trimmed non-empty fields, valid items and a positive subtotal |
| Orders.BlankFieldRefused | app/api/orders/route.ts:72-84 | A name, email or address made only of whitespace is refused with 400 and nothing is stored |
| Checkout.Payload | app/site/checkout/page.tsx:41-44 | One `{headphoneId, quantity}` per cart line, in order |
| Checkout.OrderRequestFields | app/site/checkout/page.tsx:37-46 | The route reads back exactly the fields the checkout page sends |
| Checkout.ItemPayloadValid | app/site/checkout/page.tsx:41-44 | A cart line with quantity at least 1 becomes a valid order item |
| Checkout.PayloadValid | app/site/checkout/page.tsx:41-44 | The payload of a sane cart passes the item check iff the cart is not empty |
| Checkout.CartRequestAccepted | app/site/checkout/page.tsx:37-46 | A non-empty sane cart with non-blank fields passes all three guards, and the row is the trimmed fields, the items and the subtotal |
| Checkout.CartOrderAccepted | app/site/checkout/page.tsx:28-47 | Such an order is stored iff the insert succeeds, as that row |
| Checkout.EmptyCartRefused | app/api/orders/route.ts:86-91 | An empty cart's order is refused with "items must be a non-empty array" |
| Js.Property | app/api/git/deploy/route.ts:7 | Destructuring a property throws iff the value is null or undefined |
| Js.ToNumber | components/cart-provider.tsx:37-38 | `Number()`: a blank string is 0; an array converts through its string form (empty or a lone null/undefined as "", a lone number or string as that element); a longer array is NaN |
| Js.TruthyStringIff | app/api/codex/run/route.ts:7 | `!v \|\| typeof v !== "string"` fails exactly for non-empty strings |
| Js.MessageOr | app/api/git/deploy/route.ts:18 | `err.message \|\| fallback` is the message when there is one, and never empty with a non-empty fallback |
| Text.TrimStart | components/codex-drawer.tsx:56 | Drops exactly the leading whitespace |
| Text.TrimEnd | components/codex-drawer.tsx:56 | Drops exactly the trailing whitespace |
| Text.Trim | components/codex-drawer.tsx:56 | `trim()` gives a contiguous piece of the input surrounded only by whitespace, with no whitespace at either of its ends |
| Text.TrimEmptyIff | components/codex-drawer.tsx:56 | A trimmed string is empty iff the input is all whitespace |
| Text.Prefix | lib/git.ts:28 | `slice(0, n)` is a prefix of length min(n, length) |
| Text.NatToString | lib/git.ts:27 | A number's decimal text is all digits and reads back as the number |

## Left out

- The Codex SDK (`new Codex`, `startThread`, `runStreamed`, the client singleton) is not part of this model. One run of it is the `SdkTurn` parameter. Which raw event fields are present is given as strings, with "" standing for an absent or falsy field.
- Snapshot and restore of protected files, heartbeat events and thread recycling are not in the modelled code.
- `cancelCodexRun` and the cancel route are not part of this model, since `lib/codex.ts` defines no cancel. The drawer's cancel request is described by its reply.
- Async scheduling is not modelled. Interleavings are sequences of whole calls or generator steps. The drawer's awaits are a reply scenario, in which the user's cancel arrives before the response or during a pending read.
- In the drawer, these are not modelled:
  - the 400 ms fetch retry (`FetchFailed` means both attempts failed);
  - the stall notice timer;
  - `router.refresh`;
  - scrolling;
  - the `AbortController` object itself, since an abort is the `CancelClick` / `CanceledWhileFetching` scenario.
- `JSON.parse` on the client is modelled only for the canonical layout `JSON.stringify` writes for the five event shapes. Any other record text counts as malformed, and its `SyntaxError` message is a parameter.
- `TextEncoder`/`TextDecoder` are not modelled: text is carried as characters. A chunk boundary inside a multi-byte character is not represented.
- Only the `lastInsertRowid` reply of the order insert is modelled. SQLite, `getDb`, the orders `GET` and the session routes are not part of this model.
- `req.json()` parsing is not modelled: the routes receive the parsed body. The deploy and branch routes receive the message of the `TypeError` their destructuring throws on a `null` body. In the run route the `req.json()` call and its destructuring (app/api/codex/run/route.ts:5) sit outside any `try`, so an unparsable or `null` body ends that request with an unhandled error and status 500; `RunRoute` takes the destructured `prompt` and does not model that path.
- The orders route performs no authentication and answers with the default status and `{id, ok}`. The repository's tests expect 401, 201 and `orderId`. The model follows the route.
- The git commands are an abstract log of commands with a given failure step. Working-tree effects of simple-git are not modelled.
- localStorage persistence of the cart is not modelled (writing it, and reading the stored string). `Restore` takes the already parsed value. A `JSON.parse` failure is the throwing case.
- Cart.CartProvider.UpdateQuantity: quantities are real numbers without NaN. A NaN quantity passes the source's `quantity <= 0` test and `Math.max(1, Math.floor(NaN))` is NaN, so this model does not follow it there.
- `Number()` of strings (`Js.StringToNumber`) covers decimal digits with an optional sign and fraction, plus `Infinity`. Hex, binary, octal and exponent forms read as NaN here. For a one-element array only a nested array differs from JavaScript: `Number([[5]])` is 5 there and NaN here.
- Codex.Terminal: a thrown value is an `Error` with a message or some other object (`Js.Thrown`); a thrown `null` or `undefined` is not modelled. For those, `err.message` in the catch at lib/codex.ts:84 itself throws a `TypeError`. The `finally` still clears the running flag, the generator rejects, and the run route's catch (app/api/codex/run/route.ts:29-33) writes "Stream failed" in place of the closing event. The model yields `error` with "Codex run failed" there instead. The deploy and branch routes' `err.message` reads have the same gap.
- RunRoute.TransportRun: "every event reaches the wire" holds for the thrown values the model has. With a thrown `null` or `undefined`, the last frame on the wire is the route's "Stream failed" error rather than the generator's closing event. The drawer's outcome (an error run) is the same.
- Git.CommitMessage: the 80-character limit counts characters (Unicode scalar values). JavaScript counts UTF-16 code units, so a character outside the Basic Multilingual Plane counts twice in the source, and `slice(0, 80)` can cut such a character in half, leaving a lone surrogate the model cannot represent. For prompts inside the Basic Multilingual Plane the two agree.
- Text.Prefix: `slice(0, n)` is modelled on characters, not UTF-16 code units, with the same consequence for characters outside the Basic Multilingual Plane.
- Cart.AddTotals: quantities, `itemCount` and `subtotal` are exact integers here. In JavaScript they are doubles, so above 2^53 `item.quantity + 1` (components/cart-provider.tsx:94) can leave a quantity unchanged, and a large enough quantity makes the subtotal Infinity. The same holds for Cart.IncrementTotals and Cart.TotalsAppend.
- Checkout.CartOrderAccepted: the cart's subtotal is an exact integer here. In JavaScript a subtotal that overflows to Infinity is sent as `null` by `JSON.stringify`, reads back as 0, and the order route refuses it with "subtotal must be a positive number". The model accepts such a cart; the same holds for Checkout.CartRequestAccepted.
- The `Js.Property` reads of prototype properties are not modelled. Prices and ids are integers, as the catalog has them.
- Page and presentational components, `lib/types.ts`, `next.config.ts` and the git status route have no logic to model.
