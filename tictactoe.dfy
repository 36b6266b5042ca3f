/** The tic-tac-toe mini-game: a 3x3 board, the player to move and the outcome.

    The pure part (`CheckWinner`, `Move`, `Run`) is the specification of the
    game; the class `Game` keeps the board in a 9-element array and its
    methods are proved to follow `Move`. */
module TicTacToe {
  import opened Common

  datatype Player = X | O

  /** A board cell: `null` in the source, or the mark of a player. */
  datatype Cell = Empty | Taken(player: Player)

  /** The `winner` state: `null`, `'X'`/`'O'` or `'tie'`. */
  datatype Outcome = Undecided | Won(winner: Player) | Tie

  type Index = i: int | 0 <= i < 9

  /** Three cell indices that form a row, a column or a diagonal. */
  type Line = (Index, Index, Index)

  /** The eight lines, in the order the win scan visits them. */
  const WinningLines: seq<Line> := [
    (0, 1, 2), (3, 4, 5), (6, 7, 8),
    (0, 3, 6), (1, 4, 7), (2, 5, 8),
    (0, 4, 8), (2, 4, 6)
  ]

  function Other(p: Player): Player {
    if p == X then O else X
  }

  /** The whole state of one game. */
  datatype GameState = GameState(board: seq<Cell>, currentPlayer: Player, winner: Outcome)

  function EmptyBoard(): seq<Cell> {
    seq(9, _ => Empty)
  }

  /** A fresh game: nine empty cells, X to move, no outcome. */
  function Initial(): GameState {
    GameState(EmptyBoard(), X, Undecided)
  }

  // ---------------------------------------------------------------------------
  // Win detection

  /** Player `p` holds all three cells of `line`. */
  predicate Holds(board: seq<Cell>, line: Line, p: Player)
    requires |board| == 9
  {
    board[line.0] == Taken(p) && board[line.1] == Taken(p) && board[line.2] == Taken(p)
  }

  /** Some line of the eight is held by `p`. */
  ghost predicate HasLine(board: seq<Cell>, p: Player)
    requires |board| == 9
  {
    exists k :: 0 <= k < |WinningLines| && Holds(board, WinningLines[k], p)
  }

  /** No player holds any line. */
  ghost predicate NoLine(board: seq<Cell>)
    requires |board| == 9
  {
    forall p :: !HasLine(board, p)
  }

  /** Every cell is taken. */
  predicate Full(board: seq<Cell>) {
    forall i :: 0 <= i < |board| ==> board[i] != Empty
  }

  /** The test made for one line: its first cell is taken and the other two
      equal it; the answer is the player in that cell. */
  function LineOwner(board: seq<Cell>, line: Line): Option<Player>
    requires |board| == 9
  {
    var a := board[line.0];
    if a != Empty && a == board[line.1] && a == board[line.2] then Some(a.player) else None
  }

  /** The scan over `lines` that stops at the first line held by a player. */
  function FirstOwner(board: seq<Cell>, lines: seq<Line>): Option<Player>
    requires |board| == 9
    decreases |lines|
  {
    if lines == [] then None
    else
      match LineOwner(board, lines[0])
      case Some(p) => Some(p)
      case None => FirstOwner(board, lines[1..])
  }

  /** `checkWinner`: the owner of the first held line, else a tie when every
      cell is taken, else undecided. */
  function CheckWinner(board: seq<Cell>): Outcome
    requires |board| == 9
  {
    match FirstOwner(board, WinningLines)
    case Some(p) => Won(p)
    case None => if Full(board) then Tie else Undecided
  }

  /** The one-line test answers a player exactly when that player holds the line. */
  lemma LineOwnerCorrect(board: seq<Cell>, line: Line)
    requires |board| == 9
    ensures LineOwner(board, line).Some? ==> Holds(board, line, LineOwner(board, line).value)
    ensures LineOwner(board, line).None? ==> forall p :: !Holds(board, line, p)
  {
  }

  /** The line a scan answer comes from: line `k` is held by `p`, and no line
      visited before it is held by anyone. */
  ghost predicate FirstHeldAt(board: seq<Cell>, lines: seq<Line>, k: int, p: Player)
    requires |board| == 9 && 0 <= k < |lines|
  {
    && Holds(board, lines[k], p)
    && LineOwner(board, lines[k]) == Some(p)
    && forall j :: 0 <= j < k ==> LineOwner(board, lines[j]) == None
  }

  /** The scan answers the owner of the first held line in the order of
      `lines`, and answers nothing exactly when no line is held. */
  lemma {:induction false} FirstOwnerCorrect(board: seq<Cell>, lines: seq<Line>)
    requires |board| == 9
    ensures var r := FirstOwner(board, lines);
      && (r.Some? ==> exists k :: 0 <= k < |lines| && FirstHeldAt(board, lines, k, r.value))
      && (r.None? ==> forall k, p :: 0 <= k < |lines| ==> !Holds(board, lines[k], p))
    decreases |lines|
  {
    if lines != [] {
      LineOwnerCorrect(board, lines[0]);
      FirstOwnerCorrect(board, lines[1..]);
      if LineOwner(board, lines[0]).Some? {
        assert FirstHeldAt(board, lines, 0, FirstOwner(board, lines).value);
      } else {
        assert forall k :: 1 <= k < |lines| ==> lines[k] == lines[1..][k - 1];
        var r := FirstOwner(board, lines[1..]);
        if r.Some? {
          var k :| 0 <= k < |lines[1..]| && FirstHeldAt(board, lines[1..], k, r.value);
          assert FirstHeldAt(board, lines, k + 1, r.value);
        }
      }
    }
  }

  /** `checkWinner` answers player p only if p holds one of the eight lines, and
      answers some player whenever a line is held; it answers a tie exactly
      when no line is held and every cell is taken, and nothing exactly when
      no line is held and some cell is empty. */
  lemma CheckWinnerCorrect(board: seq<Cell>)
    requires |board| == 9
    ensures CheckWinner(board).Won? ==> HasLine(board, CheckWinner(board).winner)
    ensures CheckWinner(board).Won? ==>
      exists k :: 0 <= k < |WinningLines| && FirstHeldAt(board, WinningLines, k, CheckWinner(board).winner)
    ensures CheckWinner(board).Won? <==> !NoLine(board)
    ensures CheckWinner(board) == Tie <==> NoLine(board) && Full(board)
    ensures CheckWinner(board) == Undecided <==> NoLine(board) && !Full(board)
  {
    FirstOwnerCorrect(board, WinningLines);
    var r := FirstOwner(board, WinningLines);
    if r.Some? {
      var k :| 0 <= k < |WinningLines| && FirstHeldAt(board, WinningLines, k, r.value);
      assert HasLine(board, r.value);
    }
  }

  // ---------------------------------------------------------------------------
  // Moves

  /** A move is taken only on an empty cell of an undecided game. */
  predicate Legal(s: GameState, index: Index)
    requires |s.board| == 9
  {
    s.board[index] == Empty && s.winner == Undecided
  }

  /** `makeMove(index)`: an illegal move changes nothing; otherwise the cell
      gets the current player's mark and either the outcome is recorded (the
      player is not swapped) or the turn passes to the other player. */
  function Move(s: GameState, index: Index): (r: GameState)
    requires |s.board| == 9
    ensures |r.board| == 9
  {
    if !Legal(s, index) then s
    else
      var b := s.board[index := Taken(s.currentPlayer)];
      var w := CheckWinner(b);
      if w != Undecided then s.(board := b, winner := w)
      else s.(board := b, currentPlayer := Other(s.currentPlayer))
  }

  /** The state after a sequence of clicks on cells. */
  function Run(s: GameState, moves: seq<Index>): (r: GameState)
    requires |s.board| == 9
    ensures |r.board| == 9
    decreases |moves|
  {
    if moves == [] then s else Run(Move(s, moves[0]), moves[1..])
  }

  // ---------------------------------------------------------------------------
  // The game invariant

  /** The number of cells equal to `c`. */
  function Count(board: seq<Cell>, c: Cell): nat {
    if board == [] then 0 else (if board[0] == c then 1 else 0) + Count(board[1..], c)
  }

  /** The mark counts are right for `next` being the player whose turn it is:
      as many X as O when X is next, one X more when O is next. */
  predicate Balanced(board: seq<Cell>, next: Player) {
    var x, o := Count(board, Taken(X)), Count(board, Taken(O));
    if next == X then x == o else x == o + 1
  }

  /** What every reachable state satisfies: the recorded outcome is that of the
      board, a winner is the player left as current (the one who moved last),
      and the mark counts fit whose turn it is, or was when the game ended. */
  ghost predicate Inv(s: GameState) {
    && |s.board| == 9
    && s.winner == CheckWinner(s.board)
    && (s.winner.Won? ==> s.winner.winner == s.currentPlayer)
    && (if s.winner == Undecided then Balanced(s.board, s.currentPlayer)
        else Balanced(s.board, Other(s.currentPlayer)))
  }

  lemma {:induction false} CountUpdate(board: seq<Cell>, i: int, v: Cell, c: Cell)
    requires 0 <= i < |board|
    ensures Count(board[i := v], c)
         == Count(board, c) - (if board[i] == c then 1 else 0) + (if v == c then 1 else 0)
    decreases |board|
  {
    if i > 0 {
      CountUpdate(board[1..], i - 1, v, c);
      assert board[i := v][1..] == board[1..][i - 1 := v];
    } else {
      assert board[i := v][1..] == board[1..];
    }
  }

  lemma {:induction false} CountEmptyBoard(n: nat, c: Cell)
    requires c != Empty
    ensures Count(seq(n, _ => Empty), c) == 0
  {
    if n > 0 {
      CountEmptyBoard(n - 1, c);
      assert seq(n, _ => Empty)[1..] == seq(n - 1, _ => Empty);
    }
  }

  /** A line held after a move on an empty cell of a board without lines
      belongs to the player who moved. */
  lemma NewLineIsMovers(board: seq<Cell>, index: Index, p: Player, q: Player)
    requires |board| == 9 && board[index] == Empty && NoLine(board)
    requires HasLine(board[index := Taken(p)], q)
    ensures q == p
  {
    var b := board[index := Taken(p)];
    var k :| 0 <= k < |WinningLines| && Holds(b, WinningLines[k], q);
    var line := WinningLines[k];
    if index != line.0 && index != line.1 && index != line.2 {
      ghost var held, won := Holds(board, line, q), HasLine(board, q);
      assert false;
    }
  }

  lemma InitialInv()
    ensures Inv(Initial())
  {
    var b := EmptyBoard();
    CountEmptyBoard(9, Taken(X));
    CountEmptyBoard(9, Taken(O));
    assert !Full(b) by { assert b[0] == Empty; }
    CheckWinnerCorrect(b);
  }

  /** Every move keeps the invariant. */
  lemma MovePreservesInv(s: GameState, index: Index)
    requires Inv(s)
    ensures Inv(Move(s, index))
  {
    if Legal(s, index) {
      var p := s.currentPlayer;
      var b := s.board[index := Taken(p)];
      CountUpdate(s.board, index, Taken(p), Taken(X));
      CountUpdate(s.board, index, Taken(p), Taken(O));
      CheckWinnerCorrect(s.board);
      CheckWinnerCorrect(b);
      var w := CheckWinner(b);
      if w.Won? {
        NewLineIsMovers(s.board, index, p, w.winner);
      }
    }
  }

  lemma {:induction false} RunPreservesInv(s: GameState, moves: seq<Index>)
    requires Inv(s)
    ensures Inv(Run(s, moves))
    decreases |moves|
  {
    if moves != [] {
      MovePreservesInv(s, moves[0]);
      RunPreservesInv(Move(s, moves[0]), moves[1..]);
    }
  }

  /** Every state reached by clicks from a fresh game satisfies the invariant. */
  lemma ReachableInv(moves: seq<Index>)
    ensures Inv(Run(Initial(), moves))
  {
    InitialInv();
    RunPreservesInv(Initial(), moves);
  }

  /** Every player holding a line is the recorded winner, so at most one
      player holds a line. */
  ghost predicate SingleOwner(s: GameState)
    requires |s.board| == 9
  {
    forall q :: HasLine(s.board, q) ==> s.winner == Won(q)
  }

  /** A legal move is made on a board without lines, so any line it creates
      is the mover's, and the mover is the one recorded as winner. */
  lemma MoveKeepsSingleOwner(s: GameState, index: Index)
    requires Inv(s) && SingleOwner(s)
    ensures SingleOwner(Move(s, index))
  {
    if Legal(s, index) {
      var p := s.currentPlayer;
      var b := s.board[index := Taken(p)];
      CheckWinnerCorrect(s.board);
      CheckWinnerCorrect(b);
      forall q | HasLine(b, q) ensures Move(s, index).winner == Won(q) {
        NewLineIsMovers(s.board, index, p, q);
        NewLineIsMovers(s.board, index, p, CheckWinner(b).winner);
      }
    }
  }

  lemma {:induction false} RunKeepsSingleOwner(s: GameState, moves: seq<Index>)
    requires Inv(s) && SingleOwner(s)
    ensures SingleOwner(Run(s, moves))
    decreases |moves|
  {
    if moves != [] {
      MovePreservesInv(s, moves[0]);
      MoveKeepsSingleOwner(s, moves[0]);
      RunKeepsSingleOwner(Move(s, moves[0]), moves[1..]);
    }
  }

  /** On every reachable board a player holds a line exactly when that player
      is the recorded winner: the two players never both hold a line, so the
      order of the scan never decides between them. */
  lemma ReachableSingleOwner(moves: seq<Index>)
    ensures var r := Run(Initial(), moves);
      forall q :: HasLine(r.board, q) <==> r.winner == Won(q)
  {
    InitialInv();
    CheckWinnerCorrect(Initial().board);
    RunKeepsSingleOwner(Initial(), moves);
    var r := Run(Initial(), moves);
    ReachableInv(moves);
    CheckWinnerCorrect(r.board);
  }

  /** A click on a taken cell, or any click after the game ended, changes
      nothing: board, player and outcome stay as they were. */
  lemma IllegalMoveIsNoOp(s: GameState, index: Index)
    requires |s.board| == 9
    requires s.board[index] != Empty || s.winner != Undecided
    ensures Move(s, index) == s
  {
  }

  /** A legal move writes the mover's mark into exactly that cell. */
  lemma LegalMoveWritesOneCell(s: GameState, index: Index)
    requires |s.board| == 9 && Legal(s, index)
    ensures Move(s, index).board[index] == Taken(s.currentPlayer)
    ensures forall j :: 0 <= j < 9 && j != index ==> Move(s, index).board[j] == s.board[j]
  {
  }

  /** The turn passes exactly when the move leaves the game undecided; a move
      that ends the game leaves the mover as current player, and a winner is
      that player. */
  lemma TurnPassesOnlyWhileUndecided(s: GameState, index: Index)
    requires Inv(s) && Legal(s, index)
    ensures var r := Move(s, index);
      && (r.winner == Undecided <==> r.currentPlayer == Other(s.currentPlayer))
      && (r.winner != Undecided ==> r.currentPlayer == s.currentPlayer)
      && (r.winner.Won? ==> r.winner.winner == s.currentPlayer)
  {
    MovePreservesInv(s, index);
  }

  /** Once the game has an outcome, no sequence of clicks changes anything
      until the game is reset. */
  lemma {:induction false} FinishedGameIsFrozen(s: GameState, moves: seq<Index>)
    requires |s.board| == 9 && s.winner != Undecided
    ensures Run(s, moves) == s
    decreases |moves|
  {
    if moves != [] {
      IllegalMoveIsNoOp(s, moves[0]);
      FinishedGameIsFrozen(s, moves[1..]);
    }
  }

  // ---------------------------------------------------------------------------
  // Status line

  function PlayerName(p: Player): string {
    if p == X then "X" else "O"
  }

  /** `getStatusMessage`: the tie text, else the winner text, else the turn text. */
  function StatusMessage(s: GameState): string {
    if s.winner == Tie then "It's a tie! 🤝"
    else if s.winner.Won? then "Player " + PlayerName(s.winner.winner) + " wins! 🎉"
    else "Player " + PlayerName(s.currentPlayer) + "'s turn"
  }

  /** The status line tells the three situations apart and names the right
      player: equal messages mean the same outcome and, while undecided, the
      same player to move. */
  lemma StatusMessageDetermines(s1: GameState, s2: GameState)
    requires StatusMessage(s1) == StatusMessage(s2)
    ensures s1.winner == s2.winner
    ensures s1.winner == Undecided ==> s1.currentPlayer == s2.currentPlayer
  {
    var m := StatusMessage(s1);
    assert s1.winner == Tie <==> m[0] == 'I';
    assert s2.winner == Tie <==> m[0] == 'I';
    if s1.winner != Tie {
      assert s1.winner.Won? <==> m[8] == ' ';
      assert s2.winner.Won? <==> m[8] == ' ';
      assert s1.winner.Won? ==> m[7] == PlayerName(s1.winner.winner)[0];
      assert s2.winner.Won? ==> m[7] == PlayerName(s2.winner.winner)[0];
      assert s1.winner == Undecided ==> m[7] == PlayerName(s1.currentPlayer)[0];
      assert s2.winner == Undecided ==> m[7] == PlayerName(s2.currentPlayer)[0];
    }
  }

  /** One click of a sequence, taken on its own. */
  lemma RunStep(s: GameState, index: Index, rest: seq<Index>, next: GameState)
    requires |s.board| == 9 && Move(s, index) == next
    ensures Run(s, [index] + rest) == Run(next, rest)
  {
    assert ([index] + rest)[1..] == rest;
  }

  /** A board drawn as nine characters, row by row: 'X', 'O', or anything
      else for an empty cell. */
  function Picture(rows: string): (b: seq<Cell>)
    requires |rows| == 9
  {
    seq(9, i requires 0 <= i < 9 => if rows[i] == 'X' then Taken(X) else if rows[i] == 'O' then Taken(O) else Empty)
  }

  /** The scan finds nothing when no line it visits is held. */
  lemma {:induction false} FirstOwnerNone(board: seq<Cell>, lines: seq<Line>)
    requires |board| == 9
    requires forall k :: 0 <= k < |lines| ==> LineOwner(board, lines[k]) == None
    ensures FirstOwner(board, lines) == None
    decreases |lines|
  {
    if lines != [] {
      assert LineOwner(board, lines[0]) == None;
      FirstOwnerNone(board, lines[1..]);
    }
  }

  /** The eight line tests, written out, add up to a scan that finds nothing. */
  lemma ScanClear(b: seq<Cell>)
    requires |b| == 9
    requires LineOwner(b, (0, 1, 2)) == None && LineOwner(b, (3, 4, 5)) == None
    requires LineOwner(b, (6, 7, 8)) == None && LineOwner(b, (0, 3, 6)) == None
    requires LineOwner(b, (1, 4, 7)) == None && LineOwner(b, (2, 5, 8)) == None
    requires LineOwner(b, (0, 4, 8)) == None && LineOwner(b, (2, 4, 6)) == None
    ensures FirstOwner(b, WinningLines) == None
  {
    forall k | 0 <= k < |WinningLines| ensures LineOwner(b, WinningLines[k]) == None {
      assert k in {0, 1, 2, 3, 4, 5, 6, 7};
    }
    FirstOwnerNone(b, WinningLines);
  }

  /** A legal click that leaves no line held and the cell `free` empty
      passes the turn. */
  lemma QuietStep(s: GameState, index: Index, after: seq<Cell>, free: Index)
    requires |s.board| == 9 && Legal(s, index)
    requires s.board[index := Taken(s.currentPlayer)] == after
    requires FirstOwner(after, WinningLines) == None && after[free] == Empty
    ensures Move(s, index) == GameState(after, Other(s.currentPlayer), Undecided)
  {
    assert !Full(after);
  }

  lemma OpeningStep1()
    ensures Move(Initial(), 0) == GameState(Picture("X........"), O, Undecided)
  {
    var after := Picture("X........");
    assert Initial().board[0 := Taken(X)] == after;
    ScanClear(after);
    QuietStep(Initial(), 0, after, 8);
  }

  lemma OpeningStep2()
    ensures Move(GameState(Picture("X........"), O, Undecided), 1) == GameState(Picture("XO......."), X, Undecided)
  {
    var after := Picture("XO.......");
    assert Picture("X........")[1 := Taken(O)] == after;
    ScanClear(after);
    QuietStep(GameState(Picture("X........"), O, Undecided), 1, after, 8);
  }

  lemma ColumnWinStep3()
    ensures Move(GameState(Picture("XO......."), X, Undecided), 3) == GameState(Picture("XO.X....."), O, Undecided)
  {
    var after := Picture("XO.X.....");
    assert Picture("XO.......")[3 := Taken(X)] == after;
    ScanClear(after);
    QuietStep(GameState(Picture("XO......."), X, Undecided), 3, after, 8);
  }

  lemma ColumnWinStep4()
    ensures Move(GameState(Picture("XO.X....."), O, Undecided), 4) == GameState(Picture("XO.XO...."), X, Undecided)
  {
    var after := Picture("XO.XO....");
    assert Picture("XO.X.....")[4 := Taken(O)] == after;
    ScanClear(after);
    QuietStep(GameState(Picture("XO.X....."), O, Undecided), 4, after, 8);
  }

  lemma ColumnWinStep5()
    ensures Move(GameState(Picture("XO.XO...."), X, Undecided), 6) == GameState(Picture("XO.XO.X.."), X, Won(X))
  {
    var after := Picture("XO.XO.X..");
    assert Picture("XO.XO....")[6 := Taken(X)] == after;
    assert LineOwner(after, (0, 1, 2)) == None && LineOwner(after, (3, 4, 5)) == None;
    assert LineOwner(after, (6, 7, 8)) == None && LineOwner(after, (0, 3, 6)) == Some(X);
    assert FirstOwner(after, WinningLines) == Some(X);
  }

  /** Clicks at 0, 1, 3, 4, 6 end with X holding the left column. */
  lemma ColumnWinRun()
    ensures Run(Initial(), [0, 1, 3, 4, 6]) == GameState(Picture("XO.XO.X.."), X, Won(X))
  {
    OpeningStep1();
    RunStep(Initial(), 0, [1, 3, 4, 6], GameState(Picture("X........"), O, Undecided));
    OpeningStep2();
    RunStep(GameState(Picture("X........"), O, Undecided), 1, [3, 4, 6], GameState(Picture("XO......."), X, Undecided));
    ColumnWinStep3();
    RunStep(GameState(Picture("XO......."), X, Undecided), 3, [4, 6], GameState(Picture("XO.X....."), O, Undecided));
    ColumnWinStep4();
    RunStep(GameState(Picture("XO.X....."), O, Undecided), 4, [6], GameState(Picture("XO.XO...."), X, Undecided));
    ColumnWinStep5();
    RunStep(GameState(Picture("XO.XO...."), X, Undecided), 6, [], GameState(Picture("XO.XO.X.."), X, Won(X)));
  }

  /** Clicks at 0, 1, 3, 4, 6 give X the left column (0, 3, 6), and the status
      line announces X. */
  lemma ColumnWinScenario()
    ensures Run(Initial(), [0, 1, 3, 4, 6]).winner == Won(X)
    ensures StatusMessage(Run(Initial(), [0, 1, 3, 4, 6])) == "Player X wins! 🎉"
  {
    ColumnWinRun();
    ColumnWinStatus();
  }

  lemma ColumnWinStatus()
    ensures StatusMessage(GameState(Picture("XO.XO.X.."), X, Won(X))) == "Player X wins! 🎉"
  {
  }

  lemma TieStep3()
    ensures Move(GameState(Picture("XO......."), X, Undecided), 2) == GameState(Picture("XOX......"), O, Undecided)
  {
    var after := Picture("XOX......");
    assert Picture("XO.......")[2 := Taken(X)] == after;
    ScanClear(after);
    QuietStep(GameState(Picture("XO......."), X, Undecided), 2, after, 8);
  }

  lemma TieStep4()
    ensures Move(GameState(Picture("XOX......"), O, Undecided), 4) == GameState(Picture("XOX.O...."), X, Undecided)
  {
    var after := Picture("XOX.O....");
    assert Picture("XOX......")[4 := Taken(O)] == after;
    ScanClear(after);
    QuietStep(GameState(Picture("XOX......"), O, Undecided), 4, after, 8);
  }

  lemma TieStep5()
    ensures Move(GameState(Picture("XOX.O...."), X, Undecided), 3) == GameState(Picture("XOXXO...."), O, Undecided)
  {
    var after := Picture("XOXXO....");
    assert Picture("XOX.O....")[3 := Taken(X)] == after;
    ScanClear(after);
    QuietStep(GameState(Picture("XOX.O...."), X, Undecided), 3, after, 8);
  }

  lemma TieStep6()
    ensures Move(GameState(Picture("XOXXO...."), O, Undecided), 5) == GameState(Picture("XOXXOO..."), X, Undecided)
  {
    var after := Picture("XOXXOO...");
    assert Picture("XOXXO....")[5 := Taken(O)] == after;
    ScanClear(after);
    QuietStep(GameState(Picture("XOXXO...."), O, Undecided), 5, after, 8);
  }

  lemma TieStep7()
    ensures Move(GameState(Picture("XOXXOO..."), X, Undecided), 7) == GameState(Picture("XOXXOO.X."), O, Undecided)
  {
    var after := Picture("XOXXOO.X.");
    assert Picture("XOXXOO...")[7 := Taken(X)] == after;
    ScanClear(after);
    QuietStep(GameState(Picture("XOXXOO..."), X, Undecided), 7, after, 8);
  }

  lemma TieStep8()
    ensures Move(GameState(Picture("XOXXOO.X."), O, Undecided), 6) == GameState(Picture("XOXXOOOX."), X, Undecided)
  {
    var after := Picture("XOXXOOOX.");
    assert Picture("XOXXOO.X.")[6 := Taken(O)] == after;
    ScanClear(after);
    QuietStep(GameState(Picture("XOXXOO.X."), O, Undecided), 6, after, 8);
  }

  lemma TieStep9()
    ensures Move(GameState(Picture("XOXXOOOX."), X, Undecided), 8) == GameState(Picture("XOXXOOOXX"), X, Tie)
  {
    var full := Picture("XOXXOOOXX");
    assert Picture("XOXXOOOX.")[8 := Taken(X)] == full;
    forall i | 0 <= i < 9 ensures full[i] != Empty {
      assert i in {0, 1, 2, 3, 4, 5, 6, 7, 8};
    }
    ScanClear(full);
    assert CheckWinner(full) == Tie;
  }

  /** Filling the board as X O X / X O O / O X X, with no line ever completed,
      ends in a tie, with X, who placed the last mark, left as current player. */
  lemma TieScenario()
    ensures Run(Initial(), [0, 1, 2, 4, 3, 5, 7, 6, 8]).winner == Tie
    ensures Run(Initial(), [0, 1, 2, 4, 3, 5, 7, 6, 8]).currentPlayer == X
  {
    OpeningStep1();
    RunStep(Initial(), 0, [1, 2, 4, 3, 5, 7, 6, 8], GameState(Picture("X........"), O, Undecided));
    OpeningStep2();
    RunStep(GameState(Picture("X........"), O, Undecided), 1, [2, 4, 3, 5, 7, 6, 8], GameState(Picture("XO......."), X, Undecided));
    TieStep3();
    RunStep(GameState(Picture("XO......."), X, Undecided), 2, [4, 3, 5, 7, 6, 8], GameState(Picture("XOX......"), O, Undecided));
    TieStep4();
    RunStep(GameState(Picture("XOX......"), O, Undecided), 4, [3, 5, 7, 6, 8], GameState(Picture("XOX.O...."), X, Undecided));
    TieStep5();
    RunStep(GameState(Picture("XOX.O...."), X, Undecided), 3, [5, 7, 6, 8], GameState(Picture("XOXXO...."), O, Undecided));
    TieStep6();
    RunStep(GameState(Picture("XOXXO...."), O, Undecided), 5, [7, 6, 8], GameState(Picture("XOXXOO..."), X, Undecided));
    TieStep7();
    RunStep(GameState(Picture("XOXXOO..."), X, Undecided), 7, [6, 8], GameState(Picture("XOXXOO.X."), O, Undecided));
    TieStep8();
    RunStep(GameState(Picture("XOXXOO.X."), O, Undecided), 6, [8], GameState(Picture("XOXXOOOX."), X, Undecided));
    TieStep9();
    RunStep(GameState(Picture("XOXXOOOX."), X, Undecided), 8, [], GameState(Picture("XOXXOOOXX"), X, Tie));
  }

  // ---------------------------------------------------------------------------
  // The stateful game

  class Game {
    var board: array<Cell>
    var currentPlayer: Player
    var winner: Outcome

    function State(): GameState
      reads this, board
    {
      GameState(board[..], currentPlayer, winner)
    }

    ghost predicate Valid()
      reads this, board
    {
      board.Length == 9 && Inv(State())
    }

    /** The initial state of the component. */
    constructor ()
      ensures Valid() && fresh(board)
      ensures State() == Initial()
    {
      InitialInv();
      var cells := new Cell[9](_ => Empty);
      assert cells[..] == EmptyBoard();
      board := cells;
      currentPlayer := X;
      winner := Undecided;
    }

    /** `makeMove(index)`, the click on cell `index`. */
    method MakeMove(index: Index)
      requires Valid()
      modifies this, board
      ensures Valid() && board == old(board)
      ensures State() == Move(old(State()), index)
    {
      if board[index] != Empty || winner != Undecided {
        return;
      }
      ghost var before := State();
      ghost var after := Move(before, index);
      MovePreservesInv(before, index);
      board[index] := Taken(currentPlayer);
      assert board[..] == after.board;
      var gameWinner := CheckWinner(board[..]);
      if gameWinner != Undecided {
        winner := gameWinner;
        assert State() == after;
      } else {
        currentPlayer := Other(currentPlayer);
        assert State() == after;
      }
    }

    /** `resetGame`: a fresh board, X to move, no outcome, from any state. */
    method ResetGame()
      modifies this
      ensures Valid() && fresh(board)
      ensures State() == Initial()
    {
      board := new Cell[9](_ => Empty);
      currentPlayer := X;
      winner := Undecided;
      assert board[..] == EmptyBoard();
      InitialInv();
    }

    /** `getStatusMessage`, read from the current state. */
    method GetStatusMessage() returns (msg: string)
      requires Valid()
      ensures msg == StatusMessage(State())
    {
      msg := StatusMessage(State());
    }
  }
}
