/**
 * Server and client together: a client that rendered the server's
 * snapshot and then handles the server's broadcasts in the order they
 * were sent shows exactly the server's board after every request.
 */
module Session {
  import opened Wire
  import opened Server
  import opened Client

  /** The client's buttons show `labels` and the states of `board`, slot for slot. */
  predicate Mirrors(cells: seq<Cell>, labels: seq<string>, board: seq<bool>)
  {
    |cells| == |labels| == |board| && WellFormed(cells) &&
    forall i :: 0 <= i < |cells| ==> cells[i].text == labels[i] && cells[i].active == board[i]
  }

  /** Rendering a snapshot mirrors it, whatever the board showed before. */
  lemma SnapshotMirrors(before: seq<Cell>, labels: seq<string>, board: seq<bool>)
    requires |labels| == |board|
    ensures Mirrors(React(before, Init(labels, board)).cells, labels, board)
    ensures Mirrors(React(before, Sync(labels, board)).cells, labels, board)
    ensures React(before, Init(labels, board)).emitted == []
  {
  }

  /** One toggle request on the server, its broadcasts handled by a mirroring client. */
  lemma StepMirrors(cells: seq<Cell>, labels: seq<string>, board: seq<bool>, payload: Option<int>)
    requires Mirrors(cells, labels, board)
    ensures var o := HandleToggle(board, payload);
            var r := ClientRun(cells, o.broadcast);
            Mirrors(r.cells, labels, o.board) && r.emitted == []
  {
    var o := HandleToggle(board, payload);
    if ValidIndex(board, payload) {
      var idx := payload.value;
      FindCellWellFormed(cells, idx);
      UpdateKeepsWellFormed(cells, idx, o.board[idx]);
      var after := React(cells, o.broadcast[0]);
      assert o.broadcast[1..] == [];
      assert ClientRun(cells, o.broadcast) == Reaction(after.cells, []);
      assert Mirrors(after.cells, labels, o.board);
    }
  }

  /**
   * Any sequence of toggle requests: the client that handles every
   * broadcast in order mirrors the server's final board and never has to
   * ask for a new snapshot.
   */
  lemma {:induction false} ReplayMirrors(cells: seq<Cell>, labels: seq<string>, board: seq<bool>,
                                         payloads: seq<Option<int>>)
    requires Mirrors(cells, labels, board)
    ensures var o := ServerRun(board, payloads);
            var r := ClientRun(cells, o.broadcast);
            Mirrors(r.cells, labels, o.board) && r.emitted == []
    decreases |payloads|
  {
    if payloads != [] {
      var first := HandleToggle(board, payloads[0]);
      var rest := ServerRun(first.board, payloads[1..]);
      StepMirrors(cells, labels, board, payloads[0]);
      var mid := ClientRun(cells, first.broadcast);
      ReplayMirrors(mid.cells, labels, first.board, payloads[1..]);
      ClientRunAppend(cells, first.broadcast, rest.broadcast);
    }
  }

  /**
   * A client joins with the `init` snapshot of a board and then handles
   * the broadcasts of every later request: after each request its buttons
   * show the server's board.
   */
  lemma JoinThenReplay(before: seq<Cell>, board: seq<bool>, payloads: seq<Option<int>>)
    requires |board| == |Labels|
    ensures forall n :: 0 <= n <= |payloads| ==>
              var o := ServerRun(board, payloads[..n]);
              var r := ClientRun(before, [Init(Labels, board)] + o.broadcast);
              Mirrors(r.cells, Labels, o.board) && r.emitted == []
  {
    var joined := React(before, Init(Labels, board));
    SnapshotMirrors(before, Labels, board);
    assert ClientRun(before, [Init(Labels, board)]) == Reaction(joined.cells, []);
    forall n | 0 <= n <= |payloads|
      ensures var o := ServerRun(board, payloads[..n]);
              var r := ClientRun(before, [Init(Labels, board)] + o.broadcast);
              Mirrors(r.cells, Labels, o.board) && r.emitted == []
    {
      var o := ServerRun(board, payloads[..n]);
      ReplayMirrors(joined.cells, Labels, board, payloads[..n]);
      ClientRunAppend(before, [Init(Labels, board)], o.broadcast);
    }
  }

  /**
   * A click on a mirroring client's button `k`: the server flips slot `k`
   * and the client's button `k` follows, while every other button stays.
   */
  lemma ClickRoundTrip(cells: seq<Cell>, labels: seq<string>, board: seq<bool>, k: nat)
    requires Mirrors(cells, labels, board) && k < |cells|
    ensures var o := HandleToggle(board, Some(cells[k].index));
            var r := ClientRun(cells, o.broadcast);
            o.board[k] == !board[k] &&
            |r.cells| == |cells| && r.cells[k].active == !cells[k].active &&
            forall j :: 0 <= j < |cells| && j != k ==> r.cells[j] == cells[j]
  {
    assert cells[k].index == k && cells[k].active == board[k];
    var o := HandleToggle(board, Some(k));
    assert o.broadcast == [Update(k, !board[k])];
    ClientRunOne(cells, Update(k, !board[k]));
    FindCellWellFormed(cells, k);
  }

  /** A client connects and renders the snapshot it is sent. */
  method Join(server: Server.Board, view: Client.View)
    requires server.Valid()
    modifies view
    ensures Mirrors(view.cells, Labels, server.state[..])
    ensures view.outbox == old(view.outbox)
  {
    var e := server.Connect();
    view.Receive(e);
  }

  /** One toggle request handled by the server, its broadcast delivered to a client. */
  method Relay(server: Server.Board, view: Client.View, payload: Option<int>)
    requires Mirrors(view.cells, Labels, server.state[..])
    modifies server.state, view
    ensures server.state[..] == HandleToggle(old(server.state[..]), payload).board
    ensures Mirrors(view.cells, Labels, server.state[..])
    ensures view.outbox == old(view.outbox)
  {
    ghost var cells, board := view.cells, server.state[..];
    var broadcast := server.Toggle(payload);
    StepMirrors(cells, Labels, board, payload);
    if broadcast != [] {
      assert broadcast == [broadcast[0]];
      view.Receive(broadcast[0]);
      assert ClientRun(cells, broadcast) == Reaction(view.cells, []);
    }
  }
}
