/** The state machine of `BoardView`: who plays first, whose turn it is, the last
    server response, the score and the board, driven by incoming messages and taps. */
module Game {
  import opened Messages
  import opened Tiles
  import opened Text

  /** The part of the network object the view uses: what it has sent, in order. */
  class Network {
    var outbox: seq<string>

    constructor ()
      ensures outbox == []
    {
      outbox := [];
    }

    /** `network.send(message:)`. */
    method Send(message: string)
      modifies this
      ensures outbox == old(outbox) + [message]
    {
      outbox := outbox + [message];
    }
  }

  class BoardView {
    const network: Network
    const board: Board
    var score: int
    var serverResponse: string
    var turn: bool
    var isPlayer1: bool
    /** The value of the network's incoming message when the view last saw it change. */
    var lastIncoming: string

    ghost predicate Valid()
      reads this, board
    {
      board.Valid()
    }

    /** The view as the connected screen creates it, with the network's current message. */
    constructor (network: Network, isPlayer1: bool, incoming: string)
      ensures Valid() && fresh(board) && IsFreshGrid(board.tiles, board.boardSize)
      ensures this.network == network && this.isPlayer1 == isPlayer1 && lastIncoming == incoming
      ensures score == 0 && serverResponse == "" && !turn
    {
      this.network := network;
      board := new Board();
      score := 0;
      serverResponse := "";
      turn := false;
      this.isPlayer1 := isPlayer1;
      lastIncoming := incoming;
    }

    /** What the `onChange` handler does with the new incoming value `msg`: only the session-start
        literal makes this player the first; the turn passes to this player on that literal or on the
        player's own suffix; neither flag is ever cleared; the message is always stored. */
    twostate predicate Handled(msg: string)
      reads this
    {
      && isPlayer1 == (old(isPlayer1) || msg == SessionStart)
      && turn == (old(turn) || msg == SessionStart
                  || (old(isPlayer1) && EndsWith(msg, "true"))
                  || (!old(isPlayer1) && EndsWith(msg, "false")))
      && serverResponse == msg
    }

    /** `evaluateMessage(message:)`: ends the turn and reports whether the message is a hit. */
    method EvaluateMessage(message: string) returns (found: bool)
      modifies this`turn
      ensures !turn
      ensures found == IsHit(message)
    {
      turn := false;
      if IsHit(message) {
        return true;
      } else {
        return false;
      }
    }

    /** The body of the `onChange(of: network.incomingMessage)` closure. */
    method OnIncomingMessage(newValue: string)
      modifies this`isPlayer1, this`turn, this`serverResponse
      ensures Handled(newValue)
    {
      if newValue == SessionStart {
        isPlayer1 := true;
        turn := true;
      }
      SuffixComparison(newValue, "true");
      SuffixComparison(newValue, "false");
      if isPlayer1 && Suffix(newValue, 4) == "true" {
        turn := true;
      } else if !isPlayer1 && Suffix(newValue, 5) == "false" {
        turn := true;
      }
      serverResponse := newValue;
    }

    /** A change notification: the handler runs only when the value differs from the last one seen. */
    method IncomingMessageChanged(newValue: string)
      modifies this`isPlayer1, this`turn, this`serverResponse, this`lastIncoming
      ensures lastIncoming == newValue
      ensures newValue != old(lastIncoming) ==> Handled(newValue)
      ensures newValue == old(lastIncoming) ==>
        isPlayer1 == old(isPlayer1) && turn == old(turn) && serverResponse == old(serverResponse)
    {
      if newValue != lastIncoming {
        OnIncomingMessage(newValue);
      }
      lastIncoming := newValue;
    }

    /** A tap on the tile at [x][y]. The tile is disabled while it is not this player's turn, so
        the tap then does nothing. Otherwise it sends the tile's location, evaluates the stored
        server response (ending the turn), and marks the tile and the score by that result. */
    method TapTile(x: nat, y: nat) returns (fired: bool)
      requires Valid() && x < board.boardSize && y < board.boardSize
      modifies this`turn, this`score, board, network
      ensures Valid()
      ensures fired == old(turn)
      ensures !fired ==> (turn == old(turn) && score == old(score)
        && board.tiles == old(board.tiles) && network.outbox == old(network.outbox))
      ensures fired ==> !turn && network.outbox == old(network.outbox) + [Location(x, y)]
      ensures fired ==> score == old(score) + (if IsHit(serverResponse) then 1 else 0)
      ensures fired ==> board.tiles == old(board.tiles)[x :=
        old(board.tiles)[x][y := old(board.tiles)[x][y].(image := if IsHit(serverResponse) then HitImage else MissImage)]]
    {
      if !turn {
        return false;
      }
      var tile := board.tiles[x][y];
      network.Send(tile.location);
      var response := EvaluateMessage(serverResponse);
      if response {
        board.SetImage(x, y, HitImage);
        score := score + 1;
      } else {
        board.SetImage(x, y, MissImage);
      }
      return true;
    }
  }

  // Usage: the exchanges the game's message conventions call for, seen through the contracts above.

  /** The session-start literal makes this client the first player and gives it the turn. */
  method SessionStartGivesTurn(view: BoardView)
    requires view.lastIncoming == ""
    modifies view
  {
    view.IncomingMessageChanged(SessionStart);
    assert view.isPlayer1 && view.turn && view.serverResponse == SessionStart;
  }

  /** The same value arriving again does not fire the handler, so a spent turn stays spent. */
  method RepeatedMessageIgnored(view: BoardView)
    requires view.lastIncoming == SessionStart && !view.turn
    modifies view
  {
    view.IncomingMessageChanged(SessionStart);
    assert !view.turn;
  }

  /** A tap on the tile at [3][7] sends "3,7" and ends the turn. */
  method TapSendsLocation(view: BoardView)
    requires view.Valid() && view.turn && view.network.outbox == []
    modifies view, view.board, view.network
  {
    assert Location(3, 7) == "3,7" by {
      assert IntToString(3) == "3" && IntToString(7) == "7";
    }
    var fired := view.TapTile(3, 7);
    assert fired && view.network.outbox == ["3,7"] && !view.turn;
  }

  /** A tap scored against a response that is not a hit (the session-start literal, for one)
      marks the tile as a miss and leaves the score alone. */
  method MissMarksTile(view: BoardView)
    requires view.Valid() && view.turn && !IsHit(view.serverResponse)
    modifies view, view.board, view.network
  {
    var fired := view.TapTile(3, 7);
    assert view.score == old(view.score) && view.board.tiles[3][7].image == MissImage;
  }

  /** A response that starts with "Found" and ends in "true" gives the first player the turn. */
  method FoundResponseGivesTurn(view: BoardView)
    requires view.isPlayer1 && view.lastIncoming == SessionStart
    modifies view
  {
    var response := "Found, your turn: true";
    assert response != SessionStart by {
      assert response[0] != SessionStart[0];
    }
    assert EndsWith(response, "true");
    view.IncomingMessageChanged(response);
    assert view.turn && IsHit(view.serverResponse);
  }

  /** A tap scored against a hit marks the tile as found and adds one point. */
  method HitMarksTile(view: BoardView)
    requires view.Valid() && view.turn && IsHit(view.serverResponse)
    modifies view, view.board, view.network
  {
    var fired := view.TapTile(0, 0);
    assert view.score == old(view.score) + 1 && view.board.tiles[0][0].image == HitImage;
  }

  /** The second player ignores "true" endings, still recording them, and takes the turn on "false". */
  method PlayerTwoTurns(view: BoardView)
    requires !view.isPlayer1 && !view.turn && view.lastIncoming == ""
    modifies view
  {
    assert !EndsWith("opponent_turn:true", "false") by {
      assert "opponent_turn:true"[13] != "false"[0];
    }
    view.IncomingMessageChanged("opponent_turn:true");
    assert !view.turn && view.serverResponse == "opponent_turn:true";
    view.IncomingMessageChanged("opponent_turn:false");
    assert view.turn && !view.isPlayer1;
  }
}
