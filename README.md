# Shared toggle board — Dafny model

A Flask/Socket.IO "bingo" board: the server holds 25 fixed labels and one
boolean per label. Every browser renders one button per label. Clicking a
button asks the server to toggle that slot. The server flips the slot in
place and broadcasts the new value to every client. Each client then
*sets* (does not flip) the matching button. A client that gets an update for
a button it does not have asks for a fresh snapshot. `init` (sent on connect)
and `sync` rebuild the whole board.

Modules, one per source component:

- `Wire` (wire.dfy): the messages, `ServerEvent` (`Init`, `Update`, `Sync`)
  and `ClientIntent` (`Toggle`, `RequestInit`), plus `Option` for the index
  the server parses.
- `Server` (server.dfy): app.py. It has the label list, the pure
  specification `HandleToggle` of one request, the fold `ServerRun` over a
  sequence of requests, and the class `Board`. `Board` keeps the board in an
  `array<bool>` and flips it in place.
- `Client` (client.dfy): static/js/main.js. A `Cell` is a button: its text,
  its `data-index`, its `active` class, and its `aria-pressed` value.
  `Rendered`, `FindCell`, `ApplyUpdate`, `React` and `ClientRun` specify the
  handlers. The class `View` holds the cell sequence and the list of emitted
  intents, and its methods are the handlers, proved against those functions.
- `Session` (session.dfy): both files together. A client that renders a
  snapshot and then applies the server's broadcasts in order mirrors the
  server board after every request.

The client makes no optimistic local change on click, keeps no pending set,
and sends only `{index}` in a toggle. Because an update sets rather than
flips, the last update for an index decides what its button shows.

## Model

| member | source | states |
|---|---|---|
| Server.InitialBoard | app.py:8-41 | the start-up board has one entry per label, 25 in all, every one unmarked |
| Server.HandleToggle | app.py:55-65 | a parsed index inside `0 <= idx < len` flips exactly that slot, keeps the length and all other slots, and broadcasts exactly one `update` whose state is the slot's new value; an unparsable, negative or too-large index leaves the board unchanged and broadcasts nothing |
| Server.ToggleTwiceRestores | app.py:64 | toggling the same index twice gives back the original board (and the same number of broadcasts each time) |
| Server.ServerRun | app.py:55-65 | handling requests in arrival order keeps the board length, and produces at most one broadcast per request |
| Server.Board.constructor | app.py:41 | the server's array starts as the initial board, all unmarked, with one slot per label (`Valid`) |
| Server.Board.Connect | app.py:49-52 | the connect snapshot is an `init` whose labels are the label list and whose state is the current board |
| Server.Board.Toggle | app.py:55-65 | flips the array in place exactly as `HandleToggle` says of the old board, and returns its broadcasts |
| Client.MakeButton | static/js/main.js:5-11 | a new button carries the given text, index and state, and its `aria-pressed` matches its `active` class |
| Client.Rendered | static/js/main.js:20-25 | after rendering, the board has exactly one cell per label; cell `i` has label `labels[i]` and index `i`; it is active iff `i < len(state)` and `state[i]` holds (a missing entry gives an inactive cell); every cell's `aria-pressed` matches its `active` class |
| Client.FindFrom | static/js/main.js:39 | the lookup from a position returns the first cell at or after it with the requested `data-index`, or reports that none has it |
| Client.FindCell | static/js/main.js:39 | the lookup returns the first cell with the requested `data-index`, or reports that no cell has it |
| Client.FindCellWellFormed | static/js/main.js:39 | on a rendered board the lookup succeeds exactly for `0 <= idx < len` and finds the cell at position `idx` |
| Client.FindFromSameIndices | static/js/main.js:39 | the lookup depends only on the cells' indices, so changing a cell's state does not change what is found |
| Client.ApplyUpdate | static/js/main.js:36-47 | an `update` for an existing index sets that cell's `active` to the new state and its `aria-pressed` to match; all other cells, every label and index, and the length stay the same, and nothing is emitted; for a missing index the board is unchanged and exactly one `request_init` is emitted |
| Client.UpdateKeepsWellFormed | static/js/main.js:41-42 | an update keeps every cell at its own index with `aria-pressed` matching `active` |
| Client.UpdateIdempotent | static/js/main.js:41-42 | applying the same update twice gives the same board as applying it once (set, not flip) |
| Client.UpdateOverwrites | static/js/main.js:36-42 | a later update to the same index replaces an earlier one: applying `a` then `b` gives the board that applying `b` alone gives |
| Client.UpdatesCommute | static/js/main.js:36-42 | on a rendered board, updates to two different indices give the same board in either order |
| Client.UpdateAtPosition | static/js/main.js:36-42 | on a rendered board, an update changes the state of the button at its own index only, and keeps every label, index and the length |
| Client.UpdateRunLastWins | static/js/main.js:36-47 | on a rendered board, a run of updates keeps every label, index and the length, and each button shows the state of the last update for its index, or its old state if no update named it |
| Client.InitThenUpdatesLastWins | static/js/main.js:20-47 | after `init` and then a run of updates, button `i` has label `labels[i]`, index `i`, and the state of the last update for `i`, or `!!state[i]` if no update named `i` |
| Client.React | static/js/main.js:31-54 | `init` and `sync` replace the board with the rendering of their payload, whatever it was, and emit nothing; an `update` acts as `ApplyUpdate` |
| Client.SyncIsInit | static/js/main.js:50-54 | `sync` on a payload gives the same board and emissions as `init` on that payload, from any two prior boards |
| Client.ClientRun | static/js/main.js:36-47 | a run made only of updates keeps the board length |
| Client.ClientRunOne | static/js/main.js:31-54 | handling a one-event sequence is that event's reaction |
| Client.ClientRunAppendCells | static/js/main.js:31-54 | handling `a` and then `b` leaves the same board as handling `a + b` |
| Client.ClientRunAppendEmitted | static/js/main.js:31-54 | handling `a + b` emits what `a` emits followed by what `b` then emits |
| Client.ClientRunAppend | static/js/main.js:31-54 | handling events `a` and then `b` equals handling `a + b`, with emissions concatenated in order |
| Client.View.RenderBoard | static/js/main.js:20-28 | clearing and then appending one button per label leaves exactly the rendered board |
| Client.View.OnInit | static/js/main.js:31-33 | the `init` handler replaces the board with the rendering of the payload and emits nothing |
| Client.View.OnSync | static/js/main.js:50-54 | the `sync` handler replaces the board in the same way as `init` |
| Client.View.OnUpdate | static/js/main.js:36-47 | the `update` handler changes the board and the emitted intents as `ApplyUpdate` says |
| Client.View.Receive | static/js/main.js:31-54 | every incoming event changes the board and appends to the emitted intents as `React` says |
| Client.View.Click | static/js/main.js:12-15 | a click appends exactly one `toggle{index}` for that button's index and leaves the board unchanged |
| Session.SnapshotMirrors | app.py:49-52 | rendering an `init` or `sync` snapshot shows exactly its labels and states, whatever the board showed before |
| Session.StepMirrors | app.py:62-65 | if the client mirrors the server, it still does after one toggle request has been handled and its broadcast applied, and it emits no `request_init` |
| Session.ReplayMirrors | app.py:55-65 | applying every broadcast of any sequence of requests in order keeps the client mirroring the server's final board, without any `request_init` |
| Session.JoinThenReplay | app.py:49-65 | a client that rendered the `init` snapshot and then applied the broadcasts of the first `n` requests mirrors the server after each `n` |
| Session.ClickRoundTrip | static/js/main.js:12-15 | a click on button `k` of a mirroring client makes the server flip slot `k`; the client's button `k` then flips as well, and every other button stays as it was |
| Session.Join | app.py:49-52 | for a server whose array has one slot per label (the invariant its constructor sets up), connecting and rendering the snapshot makes the view mirror the array |
| Session.Relay | app.py:62-65 | a toggle request on the server object with its broadcast delivered to a view object keeps the view mirroring the array |

## Left out

- Transport: the Socket.IO/Flask connection lifecycle, `render_template`, `socketio.run`, CORS and async workers are left out. Emits are modelled as returned values (server) and an outbox sequence (client), and delivery is a function or method call.
- Concurrency: several clients and the server worker are treated as one sequential stream of events in arrival order.
- Parsing: Python `int()` coercion of the `index` payload is a parameter of type `Option<int>`, where `None` means the conversion raised. This also covers `data.get` failing on a malformed payload.
- JavaScript truthiness: states are modelled as booleans. A non-boolean `state` entry or `data.state` is not modelled. Only the "missing entry is falsy" case of `!!state[i]` is.
- The DOM: `createElement`, `innerHTML`, `scrollTop` and the matching of a selector string are left out. The board is a sequence of cell records, and `querySelector` is the first cell whose index equals the requested one.
- Client.View.constructor: the page template is not part of this model. The board before the first `init` is taken to be empty.
- The force-refresh button, its 300 ms highlight, and the `force_refresh` emit are UI and timers. The server has no handler for `force_refresh` or `request_init`, so no server behaviour follows from either intent.
