/**
 * The browser's view of the board: one button per label, rebuilt
 * wholesale on `init` and `sync`, and changed one button at a time on
 * `update`. A click only asks the server to toggle; it changes nothing
 * locally.
 */
module Client {
  import opened Wire

  /**
   * One rendered button: its text (the label), its `data-index`, whether it carries
   * the `active` class, and the value of its `aria-pressed` attribute.
   */
  datatype Cell = Cell(text: string, index: int, active: bool, ariaPressed: string)

  /** The `aria-pressed` attribute value for a given state. */
  function AriaPressed(active: bool): string
  {
    if active then "true" else "false"
  }

  /** A freshly made button. */
  function MakeButton(text: string, index: int, active: bool): (c: Cell)
    ensures c.text == text && c.index == index && c.active == active
    ensures Accessible(c)
  {
    Cell(text, index, active, AriaPressed(active))
  }

  /** The button's `aria-pressed` attribute agrees with its `active` class. */
  predicate Accessible(c: Cell)
  {
    c.ariaPressed == AriaPressed(c.active)
  }

  /**
   * `!!state[i]`: an entry past the end of the state list is undefined,
   * which is falsy.
   */
  predicate Truthy(state: seq<bool>, i: nat)
  {
    i < |state| && state[i]
  }

  /** Every button sits at the position its `data-index` names and is accessible. */
  predicate WellFormed(cells: seq<Cell>)
  {
    forall i :: 0 <= i < |cells| ==> cells[i].index == i && Accessible(cells[i])
  }

  /** The board that rendering `labels` and `state` produces. */
  function Rendered(labels: seq<string>, state: seq<bool>): (cells: seq<Cell>)
    ensures |cells| == |labels|
    ensures forall i :: 0 <= i < |cells| ==>
              cells[i].text == labels[i] && cells[i].index == i &&
              (cells[i].active <==> i < |state| && state[i])
    ensures WellFormed(cells)
  {
    seq(|labels|, i requires 0 <= i < |labels| => MakeButton(labels[i], i, Truthy(state, i)))
  }

  /** The first button, from position `from` on, whose `data-index` is `idx`. */
  function FindFrom(cells: seq<Cell>, idx: int, from: nat): (r: Option<nat>)
    requires from <= |cells|
    ensures r.Some? ==> from <= r.value < |cells| && cells[r.value].index == idx &&
                        forall k :: from <= k < r.value ==> cells[k].index != idx
    ensures r.None? ==> forall k :: from <= k < |cells| ==> cells[k].index != idx
    decreases |cells| - from
  {
    if from == |cells| then None
    else if cells[from].index == idx then Some(from)
    else FindFrom(cells, idx, from + 1)
  }

  /** The first button on the board whose `data-index` is `idx`, if any. */
  function FindCell(cells: seq<Cell>, idx: int): (r: Option<nat>)
    ensures r.Some? ==> r.value < |cells| && cells[r.value].index == idx &&
                        forall k :: 0 <= k < r.value ==> cells[k].index != idx
    ensures r.None? ==> forall k :: 0 <= k < |cells| ==> cells[k].index != idx
  {
    FindFrom(cells, idx, 0)
  }

  /** On a well-formed board, the lookup finds exactly the in-range indices, at their own position. */
  lemma FindCellWellFormed(cells: seq<Cell>, idx: int)
    requires WellFormed(cells)
    ensures FindCell(cells, idx) == if 0 <= idx < |cells| then Some(idx) else None
  {
    if 0 <= idx < |cells| {
      assert cells[idx].index == idx;
    }
  }

  /** The lookup reads only the buttons' `data-index` values. */
  lemma {:induction false} FindFromSameIndices(a: seq<Cell>, b: seq<Cell>, idx: int, from: nat)
    requires |a| == |b| && from <= |a|
    requires forall k :: 0 <= k < |a| ==> a[k].index == b[k].index
    ensures FindFrom(a, idx, from) == FindFrom(b, idx, from)
    decreases |a| - from
  {
    if from < |a| {
      FindFromSameIndices(a, b, idx, from + 1);
    }
  }

  /** The cells after a handler ran, and what the handler emitted. */
  datatype Reaction = Reaction(cells: seq<Cell>, emitted: seq<ClientIntent>)

  /**
   * The `update` handler: when a button with that index exists, set (not
   * flip) its `active` class and `aria-pressed` to the new state; when none
   * does, leave the board alone and ask for a fresh snapshot.
   */
  function ApplyUpdate(cells: seq<Cell>, idx: int, active: bool): (r: Reaction)
    ensures |r.cells| == |cells|
    ensures FindCell(cells, idx).Some? ==>
              var k := FindCell(cells, idx).value;
              r.emitted == [] &&
              r.cells[k].active == active && Accessible(r.cells[k]) &&
              r.cells[k].text == cells[k].text && r.cells[k].index == cells[k].index &&
              forall j :: 0 <= j < |cells| && j != k ==> r.cells[j] == cells[j]
    ensures FindCell(cells, idx).None? ==> r.cells == cells && r.emitted == [RequestInit]
  {
    match FindCell(cells, idx)
    case Some(k) =>
      Reaction(cells[k := cells[k].(active := active, ariaPressed := AriaPressed(active))], [])
    case None =>
      Reaction(cells, [RequestInit])
  }

  /** An update keeps every button accessible and at its own position. */
  lemma UpdateKeepsWellFormed(cells: seq<Cell>, idx: int, active: bool)
    requires WellFormed(cells)
    ensures WellFormed(ApplyUpdate(cells, idx, active).cells)
  {
    FindCellWellFormed(cells, idx);
  }

  /** Applying the same update a second time changes nothing more. */
  lemma UpdateIdempotent(cells: seq<Cell>, idx: int, active: bool)
    ensures var once := ApplyUpdate(cells, idx, active).cells;
            ApplyUpdate(once, idx, active).cells == once
  {
    var once := ApplyUpdate(cells, idx, active).cells;
    FindFromSameIndices(cells, once, idx, 0);
  }

  /** A later update to the same index replaces the earlier one. */
  lemma UpdateOverwrites(cells: seq<Cell>, idx: int, first: bool, second: bool)
    ensures ApplyUpdate(ApplyUpdate(cells, idx, first).cells, idx, second).cells
         == ApplyUpdate(cells, idx, second).cells
  {
    FindFromSameIndices(cells, ApplyUpdate(cells, idx, first).cells, idx, 0);
  }

  /** On a rendered board, updates to different indices commute. */
  lemma UpdatesCommute(cells: seq<Cell>, i: int, a: bool, j: int, b: bool)
    requires WellFormed(cells) && i != j
    ensures ApplyUpdate(ApplyUpdate(cells, i, a).cells, j, b).cells
         == ApplyUpdate(ApplyUpdate(cells, j, b).cells, i, a).cells
  {
    FindCellWellFormed(cells, i);
    FindCellWellFormed(cells, j);
    UpdateKeepsWellFormed(cells, i, a);
    UpdateKeepsWellFormed(cells, j, b);
    FindCellWellFormed(ApplyUpdate(cells, i, a).cells, j);
    FindCellWellFormed(ApplyUpdate(cells, j, b).cells, i);
  }

  /**
   * The state the last update for index `i` in `events` carries, or
   * `current` when no event updates `i` (a reference definition, read from
   * the end of the sequence).
   */
  function LastActive(events: seq<ServerEvent>, i: int, current: bool): bool
    decreases |events|
  {
    if events == [] then current
    else
      var last := events[|events| - 1];
      if last.Update? && last.index == i then last.active
      else LastActive(events[..|events| - 1], i, current)
  }

  /** The effect of one incoming server event on the board. */
  function React(cells: seq<Cell>, e: ServerEvent): (r: Reaction)
    ensures e.Init? || e.Sync? ==> r == Reaction(Rendered(e.labels, e.state), [])
    ensures e.Update? ==> r == ApplyUpdate(cells, e.index, e.active)
  {
    match e
    case Init(labels, state) => Reaction(Rendered(labels, state), [])
    case Sync(labels, state) => Reaction(Rendered(labels, state), [])
    case Update(idx, active) => ApplyUpdate(cells, idx, active)
  }

  /** `sync` and `init` on the same payload give the same board, whatever the board was. */
  lemma SyncIsInit(before1: seq<Cell>, before2: seq<Cell>, labels: seq<string>, state: seq<bool>)
    ensures React(before1, Sync(labels, state)) == React(before2, Init(labels, state))
  {
  }

  /** Every event of the run is an incremental `update`. */
  predicate AllUpdates(events: seq<ServerEvent>)
  {
    forall k :: 0 <= k < |events| ==> events[k].Update?
  }

  /** Events handled in arrival order: the final board and everything emitted. */
  function ClientRun(cells: seq<Cell>, events: seq<ServerEvent>): (r: Reaction)
    ensures AllUpdates(events) ==> |r.cells| == |cells|
    decreases |events|
  {
    if events == [] then Reaction(cells, [])
    else
      var first := React(cells, events[0]);
      var rest := ClientRun(first.cells, events[1..]);
      Reaction(rest.cells, first.emitted + rest.emitted)
  }

  /** Handling a single event is one reaction. */
  lemma ClientRunOne(cells: seq<Cell>, e: ServerEvent)
    ensures ClientRun(cells, [e]) == React(cells, e)
  {
  }

  /** Handling `a` and then `b` leaves the board that handling `a + b` leaves. */
  lemma {:induction false} ClientRunAppendCells(cells: seq<Cell>, a: seq<ServerEvent>, b: seq<ServerEvent>)
    ensures ClientRun(cells, a + b).cells == ClientRun(ClientRun(cells, a).cells, b).cells
    decreases |a|
  {
    if a == [] {
      assert a + b == b;
    } else {
      assert (a + b)[0] == a[0];
      assert (a + b)[1..] == a[1..] + b;
      ClientRunAppendCells(React(cells, a[0]).cells, a[1..], b);
    }
  }

  /** Handling `a` and then `b` emits, in order, what handling `a + b` emits. */
  lemma {:induction false} ClientRunAppendEmitted(cells: seq<Cell>, a: seq<ServerEvent>, b: seq<ServerEvent>)
    ensures ClientRun(cells, a + b).emitted
         == ClientRun(cells, a).emitted + ClientRun(ClientRun(cells, a).cells, b).emitted
    decreases |a|
  {
    if a == [] {
      assert a + b == b;
    } else {
      var first := React(cells, a[0]);
      assert (a + b)[0] == a[0];
      assert (a + b)[1..] == a[1..] + b;
      ClientRunAppendEmitted(first.cells, a[1..], b);
      var tail := ClientRun(first.cells, a[1..]);
      var rb := ClientRun(tail.cells, b);
      assert first.emitted + (tail.emitted + rb.emitted) == first.emitted + tail.emitted + rb.emitted;
    }
  }

  /** Handling `a` and then `b` is handling `a + b`. */
  lemma ClientRunAppend(cells: seq<Cell>, a: seq<ServerEvent>, b: seq<ServerEvent>)
    ensures var ra := ClientRun(cells, a);
            var rb := ClientRun(ra.cells, b);
            ClientRun(cells, a + b) == Reaction(rb.cells, ra.emitted + rb.emitted)
  {
    ClientRunAppendCells(cells, a, b);
    ClientRunAppendEmitted(cells, a, b);
  }

  /**
   * Last write wins: on a rendered board, a run of updates keeps every
   * button's label, index and position, and leaves each button showing the
   * state of the last update for its index (its old state if there is none).
   */
  lemma {:induction false} UpdateRunLastWins(cells: seq<Cell>, events: seq<ServerEvent>)
    requires WellFormed(cells)
    requires AllUpdates(events)
    ensures var r := ClientRun(cells, events);
            |r.cells| == |cells| && WellFormed(r.cells) &&
            forall i :: 0 <= i < |cells| ==>
              r.cells[i].text == cells[i].text &&
              r.cells[i].active == LastActive(events, i, cells[i].active)
    decreases |events|
  {
    if events != [] {
      var n := |events| - 1;
      var prefix, last := events[..n], events[n];
      assert events == prefix + [last];
      UpdateRunLastWins(cells, prefix);
      var mid := ClientRun(cells, prefix);
      ClientRunAppend(cells, prefix, [last]);
      ClientRunOne(mid.cells, last);
      UpdateAtPosition(mid.cells, last.index, last.active);
    }
  }

  /** On a rendered board, an update changes the state of the button at its own position only. */
  lemma UpdateAtPosition(cells: seq<Cell>, idx: int, active: bool)
    requires WellFormed(cells)
    ensures var after := ApplyUpdate(cells, idx, active).cells;
            |after| == |cells| && WellFormed(after) &&
            forall i :: 0 <= i < |cells| ==>
              after[i].text == cells[i].text &&
              after[i].active == (if i == idx then active else cells[i].active)
  {
    FindCellWellFormed(cells, idx);
    UpdateKeepsWellFormed(cells, idx, active);
  }

  /**
   * After `init` and then a run of updates, button `i` shows label
   * `labels[i]` and the state of the last update for `i`, or
   * `!!state[i]` when no update named `i`.
   */
  lemma InitThenUpdatesLastWins(before: seq<Cell>, labels: seq<string>, state: seq<bool>,
                                updates: seq<ServerEvent>)
    requires AllUpdates(updates)
    ensures var r := ClientRun(before, [Init(labels, state)] + updates);
            |r.cells| == |labels| &&
            forall i :: 0 <= i < |labels| ==>
              r.cells[i].text == labels[i] && r.cells[i].index == i &&
              r.cells[i].active == LastActive(updates, i, Truthy(state, i))
  {
    var rendered := Rendered(labels, state);
    ClientRunOne(before, Init(labels, state));
    ClientRunAppend(before, [Init(labels, state)], updates);
    UpdateRunLastWins(rendered, updates);
  }

  /** The page: its buttons, and everything it has emitted so far. */
  class View {
    var cells: seq<Cell>
    var outbox: seq<ClientIntent>

    /** Before the first snapshot the board holds no buttons. */
    constructor ()
      ensures cells == [] && outbox == []
    {
      cells := [];
      outbox := [];
    }

    /** Clear the board and append one button per label. */
    method RenderBoard(labels: seq<string>, state: seq<bool>)
      modifies this`cells
      ensures cells == Rendered(labels, state)
    {
      cells := [];
      var i := 0;
      while i < |labels|
        invariant 0 <= i <= |labels|
        invariant |cells| == i
        invariant forall j :: 0 <= j < i ==> cells[j] == MakeButton(labels[j], j, Truthy(state, j))
      {
        cells := cells + [MakeButton(labels[i], i, Truthy(state, i))];
        i := i + 1;
      }
    }

    /** The `init` handler. */
    method OnInit(labels: seq<string>, state: seq<bool>)
      modifies this`cells
      ensures cells == Rendered(labels, state)
    {
      RenderBoard(labels, state);
    }

    /** The `sync` handler: the same full re-render as `init`. */
    method OnSync(labels: seq<string>, state: seq<bool>)
      modifies this`cells
      ensures cells == Rendered(labels, state)
    {
      RenderBoard(labels, state);
    }

    /** The `update` handler. */
    method OnUpdate(idx: int, active: bool)
      modifies this
      ensures cells == ApplyUpdate(old(cells), idx, active).cells
      ensures outbox == old(outbox) + ApplyUpdate(old(cells), idx, active).emitted
    {
      var found := FindCell(cells, idx);
      match found {
        case Some(k) =>
          cells := cells[k := cells[k].(active := active, ariaPressed := AriaPressed(active))];
        case None =>
          outbox := outbox + [RequestInit];
      }
    }

    /** Dispatch of one incoming server event to its handler. */
    method Receive(e: ServerEvent)
      modifies this
      ensures cells == React(old(cells), e).cells
      ensures outbox == old(outbox) + React(old(cells), e).emitted
    {
      match e {
        case Init(labels, state) => OnInit(labels, state);
        case Sync(labels, state) => OnSync(labels, state);
        case Update(idx, active) => OnUpdate(idx, active);
      }
    }

    /** A click on the button at position `k`: ask the server to toggle its index. */
    method Click(k: nat)
      requires k < |cells|
      modifies this`outbox
      ensures outbox == old(outbox) + [Toggle(cells[k].index)]
    {
      outbox := outbox + [Toggle(cells[k].index)];
    }
  }
}
