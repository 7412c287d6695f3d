/**
 * The board server: a fixed list of 25 labels and one boolean per label.
 * A `toggle` request flips one slot and broadcasts the new value;
 * a newly connected client receives a full snapshot.
 */
module Server {
  import opened Wire

  /** The labels of the 5x5 board, in display order (five rows of five). */
  const Labels: seq<string> := [
    "Someone drops their VK",
    "Someone falls over",
    "Someone gets ID\U{2019}d",
    "Someone loses their jacket",
    "Someone bumps into their ex",

    "Mirror selfies in the toilet",
    "Someone cries in the bathroom",
    "Someone starts chanting",
    "Someone says \"shots!\"",
    "Someone gets denied entry",

    "Someone spills their drink",
    "New best friend in smoking area",
    "\U{201C}This is my song!\U{201D}",
    "Someone is barefoot",
    "Someone disappears for 30 mins",

    "Card gets declined",
    "\U{201C}I've got a 9am tomorrow\U{201D}",
    "Orders water",
    "Gets takeaway mid-night",
    "Drops their phone",

    "Wearing a society hoodie",
    "Lost their voice",
    "Filming a TikTok",
    "Forgets student card",
    "\U{201C}You're my best friend\U{201D}"
  ]

  /** The board at start-up: one unmarked slot per label. */
  function InitialBoard(): (b: seq<bool>)
    ensures |b| == |Labels| == 25
    ensures forall i :: 0 <= i < |b| ==> !b[i]
  {
    seq(|Labels|, _ => false)
  }

  /** The new board and the broadcasts produced by handling one request. */
  datatype Outcome = Outcome(board: seq<bool>, broadcast: seq<ServerEvent>)

  /** True when the parsed index names a slot of `board`. */
  predicate ValidIndex(board: seq<bool>, payload: Option<int>)
  {
    payload.Some? && 0 <= payload.value < |board|
  }

  /**
   * Handling of one `toggle` request whose index has been parsed to
   * `payload` (None: the conversion to an integer failed).
   * A valid index flips exactly that slot and broadcasts one update with
   * the slot's new value; anything else changes nothing and is silent.
   */
  function HandleToggle(board: seq<bool>, payload: Option<int>): (o: Outcome)
    ensures |o.board| == |board|
    ensures forall i :: 0 <= i < |board| ==>
              o.board[i] == (if ValidIndex(board, payload) && i == payload.value then !board[i] else board[i])
    ensures ValidIndex(board, payload) ==>
              o.broadcast == [Update(payload.value, o.board[payload.value])]
    ensures !ValidIndex(board, payload) ==> o.board == board && o.broadcast == []
  {
    match payload
    case None => Outcome(board, [])
    case Some(idx) =>
      if 0 <= idx < |board| then
        var flipped := board[idx := !board[idx]];
        Outcome(flipped, [Update(idx, flipped[idx])])
      else
        Outcome(board, [])
  }

  /** Toggling the same slot twice gives back the original board. */
  lemma ToggleTwiceRestores(board: seq<bool>, payload: Option<int>)
    ensures HandleToggle(HandleToggle(board, payload).board, payload).board == board
    ensures |HandleToggle(HandleToggle(board, payload).board, payload).broadcast|
         == |HandleToggle(board, payload).broadcast|
  {
  }

  /**
   * A sequence of toggle requests handled in arrival order:
   * the final board and every broadcast, in the order sent.
   */
  function ServerRun(board: seq<bool>, payloads: seq<Option<int>>): (o: Outcome)
    ensures |o.board| == |board|
    ensures |o.broadcast| <= |payloads|
    decreases |payloads|
  {
    if payloads == [] then Outcome(board, [])
    else
      var first := HandleToggle(board, payloads[0]);
      var rest := ServerRun(first.board, payloads[1..]);
      Outcome(rest.board, first.broadcast + rest.broadcast)
  }

  /**
   * The server process: `state` is the module-level board, updated in
   * place by `Toggle`.
   */
  class Board {
    var state: array<bool>

    /** The board has one slot per label; no operation changes its length. */
    predicate Valid()
      reads this
    {
      state.Length == |Labels|
    }

    /** Start-up: every slot unmarked. */
    constructor ()
      ensures Valid() && fresh(state)
      ensures state[..] == InitialBoard()
    {
      state := new bool[|Labels|](_ => false);
    }

    /** On connect: the snapshot sent to the connecting client. */
    method Connect() returns (e: ServerEvent)
      ensures e.Init? && e.labels == Labels && e.state == state[..]
    {
      e := Init(Labels, state[..]);
    }

    /** On `toggle`: check the parsed index, flip in place, broadcast. */
    method Toggle(payload: Option<int>) returns (broadcast: seq<ServerEvent>)
      modifies state
      ensures state[..] == HandleToggle(old(state[..]), payload).board
      ensures broadcast == HandleToggle(old(state[..]), payload).broadcast
    {
      match payload {
        case None =>
          broadcast := [];
        case Some(idx) =>
          if 0 <= idx < state.Length {
            state[idx] := !state[idx];
            broadcast := [Update(idx, state[idx])];
          } else {
            broadcast := [];
          }
      }
    }
  }
}
