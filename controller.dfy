/**
 * The revision in ChessEngine/BoardController.cs: a `BoardController` owns an
 * 8 by 8 grid of tiles, one list of pieces per team, the list of played
 * moves in notation, a turn counter, a half-move counter and three flags.
 * A position is loaded from Forsyth-Edwards Notation, and moves are
 * exchanged as long algebraic strings such as "e2e4" or "e7e8q".
 *
 * Model. A tile keeps its coordinates, so a tile is its square and the grid
 * records which piece each tile points at. Piece objects live in an arena
 * `seq<Piece>`: a piece's identity is its arena index, the two team lists
 * hold indices, and a tile points at a piece by its index. A piece taken
 * out of its list stays in the arena, as the object stays alive. A listed
 * move is the value `Move` whose `Text` is the string the source builds;
 * `Text` is injective, so comparing strings is comparing moves.
 */
module Controller {
  import opened Geometry
  import opened Fen

  /** A piece: its type letter, its team (0 plays the upper-case pieces), the square of its tile, and whether it has moved. */
  datatype Piece = Piece(kind: char, team: int, at: Sq, moved: bool)

  /** A listed move: origin, target, and whether its text carries the suffix `q`. */
  datatype Move = Move(from: Sq, to: Sq, queen: bool)

  /**
   * What the pawn's en-passant test reads: nothing while `enPassant` is off;
   * otherwise the file named by the first character of the last entry of
   * `moveList`, or `Unreadable` when there is no such character.
   */
  datatype Passant = Off | File(x: int) | Unreadable

  /** What move generation reads: tiles, the piece arena, the two team lists and the en-passant test. */
  datatype Position = Position(board: seq<seq<Option<nat>>>, arena: seq<Piece>, lists: seq<seq<nat>>, ep: Passant)

  // ---------------------------------------------------------------------
  // Move texts
  // ---------------------------------------------------------------------

  predicate OnBoard(m: Move) {
    InBoard(m.from.x, m.from.y) && InBoard(m.to.x, m.to.y)
  }

  /** The text of a listed move: `tile.ToString() + t.ToString()`, and `q` after a pawn push onto the last rank. */
  function Text(m: Move): (r: string)
    requires OnBoard(m)
    ensures |r| == if m.queen then 5 else 4
    ensures r[..2] == SquareName(m.from) && r[2..4] == SquareName(m.to)
  {
    SquareName(m.from) + SquareName(m.to) + (if m.queen then "q" else "")
  }

  /** How `MovePiece` reads a text: the tile at characters 0 and 1, the target at 2 and 3, a promotion letter after them. */
  function Read(s: string): Move
    requires |s| >= 4
  {
    Move(SquareAt(s, 0), SquareAt(s, 2), |s| > 4)
  }

  /** Reading the text of a move gives the move back. */
  lemma TextRead(m: Move)
    requires OnBoard(m)
    ensures Read(Text(m)) == m
  {
    var s := Text(m);
    assert s[0] == SquareName(m.from)[0] && s[1] == SquareName(m.from)[1];
    assert s[2] == SquareName(m.to)[0] && s[3] == SquareName(m.to)[1];
    SquareNameRead(m.from);
    SquareNameRead(m.to);
  }

  /** Two listed moves with the same text are the same move. */
  lemma TextInjective(m: Move, n: Move)
    requires OnBoard(m) && OnBoard(n)
    ensures Text(m) == Text(n) <==> m == n
  {
    TextRead(m);
    TextRead(n);
  }

  /** Two squares with the same name are the same square. */
  lemma NameInjective(a: Sq, b: Sq)
    requires InBoard(a.x, a.y) && InBoard(b.x, b.y)
    ensures SquareName(a) == SquareName(b) <==> a == b
  {
    SquareNameRead(a);
    SquareNameRead(b);
  }

  /** `move[2..]` names a square exactly when the move ends there without a suffix. */
  lemma TailNames(m: Move, t: Sq)
    requires OnBoard(m) && InBoard(t.x, t.y)
    ensures Text(m)[2..] == SquareName(t) <==> m.to == t && !m.queen
  {
    var s := Text(m);
    if s[2..] == SquareName(t) {
      assert s[2..4] == s[2..];
      NameInjective(m.to, t);
    }
    if m.to == t && !m.queen {
      assert s[2..] == s[2..4];
    }
  }

  /** `move[..2]` names a square exactly when the move starts there. */
  lemma HeadNames(m: Move, t: Sq)
    requires OnBoard(m) && InBoard(t.x, t.y)
    ensures Text(m)[..2] == SquareName(t) <==> m.from == t
  {
    NameInjective(m.from, t);
  }

  // ---------------------------------------------------------------------
  // Positions
  // ---------------------------------------------------------------------

  /** The other team, as `CheckCheck` computes it. */
  function Opponent(team: int): int {
    (team + 1) % 2
  }

  function Dir(team: int): int {
    if team == 0 then 1 else -1
  }

  /** The back rank of a team: where its castling looks. */
  function Home(team: int): int {
    if team == 0 then 0 else 7
  }

  /** Arena entry `id` exists, stands on a tile of the board and plays for team 0 or 1. */
  predicate Placed(pos: Position, id: nat) {
    id < |pos.arena| && InBoard(pos.arena[id].at.x, pos.arena[id].at.y) && 0 <= pos.arena[id].team < 2
  }

  /** What generation needs not to fail: every piece a tile or a list refers to is placed. */
  ghost predicate Sane(pos: Position) {
    IsGrid(pos.board) && |pos.lists| == 2 &&
    (forall x, y | InBoard(x, y) && pos.board[x][y].Some? :: Placed(pos, pos.board[x][y].value)) &&
    (forall s, i | 0 <= s < 2 && 0 <= i < |pos.lists[s]| :: Placed(pos, pos.lists[s][i]))
  }

  /** Piece.TileCheck: 0 for a tile holding `team`, 1 for a tile holding another team, 2 for an empty tile. */
  function TileCheck(pos: Position, team: int, t: Sq): (r: int)
    requires Sane(pos) && InBoard(t.x, t.y)
    ensures r == 2 <==> pos.board[t.x][t.y] == None
    ensures r == 0 <==> pos.board[t.x][t.y].Some? && pos.arena[pos.board[t.x][t.y].value].team == team
    ensures r == 1 <==> pos.board[t.x][t.y].Some? && pos.arena[pos.board[t.x][t.y].value].team != team
  {
    match pos.board[t.x][t.y]
    case None => 2
    case Some(id) => if pos.arena[id].team == team then 0 else 1
  }

  // ---------------------------------------------------------------------
  // Attack mode
  // ---------------------------------------------------------------------

  /** In attack mode a pawn lists the diagonals ahead of it, when the rank ahead is on the board. */
  function PawnAttacks(p: Piece): set<Sq> {
    var x, y, d := p.at.x, p.at.y, Dir(p.team);
    if 0 <= y + d < 8 then
      (if x + 1 < 8 then {Sq(x + 1, y + d)} else {}) + (if x - 1 >= 0 then {Sq(x - 1, y + d)} else {})
    else {}
  }

  /**
   * The squares the generator of `p` visits, all of which attack mode lists:
   * queen and bishop rays of six steps, rook rays of seven.
   */
  function Candidates(pos: Position, p: Piece): set<Sq>
    requires IsGrid(pos.board) && InBoard(p.at.x, p.at.y)
  {
    var x, y := p.at.x, p.at.y;
    match p.kind
    case 'K' => KingSquares(x, y)
    case 'Q' => QueenReach(pos.board, x, y, 6)
    case 'R' => LineReach(pos.board, x, y, 7)
    case 'B' => DiagonalReach(pos.board, x, y, 6)
    case 'N' => KnightJumps(x, y)
    case 'P' => PawnAttacks(p)
    case _ => {}
  }

  /** The moves from `from` to the squares `ts`, without suffix. */
  function Spelled(from: Sq, ts: set<Sq>): set<Move> {
    set t | t in ts :: Move(from, t, false)
  }

  /** The attack-mode moves of the first `n` pieces in the list of `side`. */
  function AttackMoves(pos: Position, side: int, n: nat): set<Move>
    requires Sane(pos) && 0 <= side < 2 && n <= |pos.lists[side]|
  {
    if n == 0 then {}
    else
      var p := pos.arena[pos.lists[side][n - 1]];
      AttackMoves(pos, side, n - 1) + Spelled(p.at, Candidates(pos, p))
  }

  /**
   * The tile of the first king in the list of `team` from index `i` on, as
   * `CheckCheck` finds it: there is one exactly when the list holds a king
   * from `i` on, and it is the tile of the first such entry.
   */
  function KingFrom(pos: Position, team: int, i: nat): (r: Option<Sq>)
    requires Sane(pos) && 0 <= team < 2 && i <= |pos.lists[team]|
    decreases |pos.lists[team]| - i
    ensures r.Some? <==> exists j | i <= j < |pos.lists[team]| :: pos.arena[pos.lists[team][j]].kind == 'K'
    ensures r.Some? ==> exists j | i <= j < |pos.lists[team]| ::
      pos.arena[pos.lists[team][j]].kind == 'K' && r.value == pos.arena[pos.lists[team][j]].at &&
      forall k | i <= k < j :: pos.arena[pos.lists[team][k]].kind != 'K'
    ensures r.Some? ==> InBoard(r.value.x, r.value.y)
  {
    if i == |pos.lists[team]| then None
    else if pos.arena[pos.lists[team][i]].kind == 'K' then Some(pos.arena[pos.lists[team][i]].at)
    else KingFrom(pos, team, i + 1)
  }

  function KingOf(pos: Position, team: int): Option<Sq>
    requires Sane(pos) && 0 <= team < 2
  {
    KingFrom(pos, team, 0)
  }

  /** The square `CheckCheck` skips moves from: the tile of the captured piece, if any. */
  function Skip(pos: Position, captured: Option<nat>): Option<Sq>
    requires captured.Some? ==> captured.value < |pos.arena|
  {
    if captured.Some? then Some(pos.arena[captured.value].at) else None
  }

  /** A move counts against the king: it does not start on the skipped square and its text ends with the king's tile. */
  predicate Hits(m: Move, skip: Option<Sq>, king: Option<Sq>) {
    (skip.None? || m.from != skip.value) && king == Some(m.to) && !m.queen
  }

  /** CheckCheck(team, captured): some attack-mode move of the other team that does not start on `skip` ends on the king. */
  ghost predicate InCheck(pos: Position, team: int, skip: Option<Sq>)
    requires Sane(pos) && 0 <= team < 2
  {
    exists m | m in AttackMoves(pos, Opponent(team), |pos.lists[Opponent(team)]|) :: Hits(m, skip, KingOf(pos, team))
  }

  /** Some attack-mode move of `side` ends on `t` with no suffix: the castling test on the list of move tails. */
  ghost predicate Attacked(pos: Position, side: int, t: Sq)
    requires Sane(pos) && 0 <= side < 2
  {
    exists m | m in AttackMoves(pos, side, |pos.lists[side]|) :: m.to == t && !m.queen
  }

  // ---------------------------------------------------------------------
  // Legal mode
  // ---------------------------------------------------------------------

  /** The position `MoveCheck` examines: the piece left its tile, points at `t`, and `t` points at it. */
  function Trial(pos: Position, id: nat, t: Sq): (r: Position)
    requires Sane(pos) && Placed(pos, id) && InBoard(t.x, t.y)
    ensures Sane(r) && r.lists == pos.lists && |r.arena| == |pos.arena|
    ensures r.arena[id] == pos.arena[id].(at := t)
  {
    var p := pos.arena[id];
    var cleared := SetCell(pos.board, p.at.x, p.at.y, None);
    Position(SetCell(cleared, t.x, t.y, Some(id)), pos.arena[id := p.(at := t)], pos.lists, pos.ep)
  }

  /** MoveCheck: in the trial position the mover's team is not in check, skipping the piece that stood on `t`. */
  ghost predicate Safe(pos: Position, id: nat, t: Sq)
    requires Sane(pos) && Placed(pos, id) && InBoard(t.x, t.y)
  {
    var r := Trial(pos, id, t);
    !InCheck(r, pos.arena[id].team, Skip(r, pos.board[t.x][t.y]))
  }

  /** The unguarded read of legal mode: an unmoved pawn whose single push is on the board also reads two squares ahead. */
  predicate Generable(p: Piece, legal: bool) {
    legal && p.kind == 'P' && !p.moved && 0 <= p.at.y + Dir(p.team) < 8 ==> 0 <= p.at.y + 2 * Dir(p.team) < 8
  }

  /** The tile of arena entry `id` points back at it, so that `MoveCheck` puts back what it found. */
  predicate Seated(pos: Position, id: nat)
    requires IsGrid(pos.board) && Placed(pos, id)
  {
    pos.board[pos.arena[id].at.x][pos.arena[id].at.y] == Some(id)
  }

  /** No piece listed for `side` is a pawn. */
  ghost predicate Pawnless(pos: Position, side: int)
    requires Sane(pos) && 0 <= side < 2
  {
    forall i | 0 <= i < |pos.lists[side]| :: pos.arena[pos.lists[side][i]].kind != 'P'
  }

  /**
   * Piece.GetMoves(legal) can run for arena entry `id`. Only a pawn's
   * diagonal test reads the last record, so only a pawn needs it readable.
   */
  ghost predicate Ready(pos: Position, id: nat, legal: bool) {
    Sane(pos) && Placed(pos, id) && Generable(pos.arena[id], legal) &&
    (legal ==> Seated(pos, id) && (pos.arena[id].kind == 'P' ==> pos.ep != Unreadable))
  }

  /** The positions in which Piece.GetMoves(legal) can run for `id`. */
  ghost function ReadyFor(id: nat, legal: bool): iset<Position> {
    iset pos | Ready(pos, id, legal)
  }

  /** Whether a visited square is listed: always in attack mode; in legal mode when not own and safe. */
  ghost predicate Keep(pos: Position, id: nat, legal: bool, t: Sq)
    requires Ready(pos, id, legal)
  {
    !legal || (InBoard(t.x, t.y) && TileCheck(pos, pos.arena[id].team, t) != 0 && Safe(pos, id, t))
  }

  /** The squares of the board a king, queen, rook, bishop or knight keeps when its generator visits them. */
  ghost function Kept(pos: Position, id: nat, legal: bool): set<Sq>
    requires Ready(pos, id, legal)
  {
    set x, y | 0 <= x < 8 && 0 <= y < 8 && Keep(pos, id, legal, Sq(x, y)) :: Sq(x, y)
  }

  lemma KeptIff(pos: Position, id: nat, legal: bool, t: Sq)
    requires Ready(pos, id, legal)
    ensures t in Kept(pos, id, legal) <==> InBoard(t.x, t.y) && Keep(pos, id, legal, t)
  {
    if InBoard(t.x, t.y) && Keep(pos, id, legal, t) {
      assert Sq(t.x, t.y) == t;
    }
  }

  /** A pawn push onto `t` in legal mode: the tile is empty and the trial leaves the king safe. */
  ghost predicate Pushes(pos: Position, id: nat, t: Sq)
    requires Sane(pos) && Placed(pos, id) && InBoard(t.x, t.y)
  {
    TileCheck(pos, pos.arena[id].team, t) == 2 && Safe(pos, id, t)
  }

  /**
   * A pawn's diagonal onto file `i`: listed in attack mode; in legal mode
   * when safe and the tile holds another team, or when en passant is on and
   * the last move's text starts with that file.
   */
  ghost function Diagonal(pos: Position, id: nat, legal: bool, i: int): set<Sq>
    requires Ready(pos, id, legal) && 0 <= pos.arena[id].at.y + Dir(pos.arena[id].team) < 8
  {
    var p := pos.arena[id];
    var t := Sq(i, p.at.y + Dir(p.team));
    if 0 <= i < 8 && (!legal || (Safe(pos, id, t) && (TileCheck(pos, p.team, t) == 1 || pos.ep == File(i))))
    then {t} else {}
  }

  /**
   * A pawn's targets: the push only in legal mode, the double push only
   * after the push and only for an unmoved pawn, and the two diagonals.
   */
  ghost function PawnTargets(pos: Position, id: nat, legal: bool): set<Sq>
    requires Ready(pos, id, legal) && pos.arena[id].kind == 'P'
  {
    var p := pos.arena[id];
    var x, y, d := p.at.x, p.at.y, Dir(p.team);
    if !(0 <= y + d < 8) then {}
    else PushTargets(pos, id, legal) + Diagonal(pos, id, legal, x + 1) + Diagonal(pos, id, legal, x - 1)
  }

  /** The pushes, legal mode only: the square ahead, and then two ahead for an unmoved pawn. */
  ghost function PushTargets(pos: Position, id: nat, legal: bool): set<Sq>
    requires Ready(pos, id, legal) && pos.arena[id].kind == 'P'
    requires 0 <= pos.arena[id].at.y + Dir(pos.arena[id].team) < 8
  {
    var p := pos.arena[id];
    var f, f2 := Sq(p.at.x, p.at.y + Dir(p.team)), Sq(p.at.x, p.at.y + 2 * Dir(p.team));
    if legal && Pushes(pos, id, f) then {f} + (if !p.moved && Pushes(pos, id, f2) then {f2} else {}) else {}
  }

  /**
   * One castling branch of `team`: the corner tile holds an unmoved piece of
   * any kind, and the squares on files `pass` and `land` of the back rank
   * are empty and not among the other team's attack-mode move tails.
   */
  ghost predicate Castle(pos: Position, team: int, corner: int, pass: int, land: int)
    requires Sane(pos) && 0 <= team < 2 && 0 <= corner < 8 && 0 <= pass < 8 && 0 <= land < 8
  {
    var r, other := Home(team), if team == 0 then 1 else 0;
    pos.board[corner][r].Some? && !pos.arena[pos.board[corner][r].value].moved &&
    TileCheck(pos, team, Sq(pass, r)) == 2 && !Attacked(pos, other, Sq(pass, r)) &&
    TileCheck(pos, team, Sq(land, r)) == 2 && !Attacked(pos, other, Sq(land, r))
  }

  /**
   * The castling moves of an unmoved king not in check: the queen-side
   * branch (corner a, files d and c) and the king-side branch (corner h,
   * files f and g) both list the c-file square of the back rank.
   */
  ghost function Castles(pos: Position, id: nat): set<Sq>
    requires Ready(pos, id, true) && pos.arena[id].kind == 'K'
  {
    var p := pos.arena[id];
    var r := Home(p.team);
    if !p.moved && !InCheck(pos, p.team, None) then
      (if Castle(pos, p.team, 0, 3, 2) then {Sq(2, r)} else {}) +
      (if Castle(pos, p.team, 7, 5, 6) then {Sq(2, r)} else {})
    else {}
  }

  /** The targets Piece.GetMoves(legal) lists for arena entry `id`. */
  ghost function Targets(pos: Position, id: nat, legal: bool): set<Sq>
    requires Ready(pos, id, legal)
  {
    var p := pos.arena[id];
    match p.kind
    case 'K' => KingSquares(p.at.x, p.at.y) * Kept(pos, id, legal) + (if legal then Castles(pos, id) else {})
    case 'P' => PawnTargets(pos, id, legal)
    case _ => Candidates(pos, p) * Kept(pos, id, legal)
  }

  /** The suffix `q`: a pawn's push onto rank index 0 or 7. */
  predicate Promo(p: Piece, t: Sq) {
    p.kind == 'P' && t == Sq(p.at.x, p.at.y + Dir(p.team)) && (t.y == 0 || t.y == 7)
  }

  /** The moves Piece.GetMoves(legal) lists for arena entry `id`. */
  ghost function Listed(pos: Position, id: nat, legal: bool): set<Move>
    requires Ready(pos, id, legal)
  {
    var p := pos.arena[id];
    set t | t in Targets(pos, id, legal) :: Move(p.at, t, Promo(p, t))
  }

  /** GetMoves(side, legal) can run. */
  ghost predicate SideReady(pos: Position, side: int, legal: bool) {
    Sane(pos) && 0 <= side < 2 &&
    (legal ==>
       forall i | 0 <= i < |pos.lists[side]| ::
         Generable(pos.arena[pos.lists[side][i]], true) && Seated(pos, pos.lists[side][i]) &&
         (pos.arena[pos.lists[side][i]].kind == 'P' ==> pos.ep != Unreadable))
  }

  /** The moves listed for the first `n` pieces in the list of `side`. */
  ghost function AllMoves(pos: Position, side: int, legal: bool, n: nat): set<Move>
    requires SideReady(pos, side, legal) && n <= |pos.lists[side]|
  {
    if n == 0 then {}
    else AllMoves(pos, side, legal, n - 1) + Listed(pos, pos.lists[side][n - 1], legal)
  }

  function Level(legal: bool): nat {
    if legal then 2 else 0
  }

  // ---------------------------------------------------------------------
  // Lemmas about generation
  // ---------------------------------------------------------------------

  /** Every square a generator visits is on the board. */
  lemma CandidatesOnBoard(pos: Position, p: Piece, t: Sq)
    requires IsGrid(pos.board) && InBoard(p.at.x, p.at.y) && t in Candidates(pos, p)
    ensures InBoard(t.x, t.y)
  {
    var g, x, y := pos.board, p.at.x, p.at.y;
    if p.kind == 'Q' || p.kind == 'B' {
      var dx, dy :| IsDirection(dx, dy) && t in Reached(g, x, y, dx, dy, 6);
      ReachedOnRay(g, x, y, dx, dy, 6, t);
    } else if p.kind == 'R' {
      var dx, dy :| IsDirection(dx, dy) && t in Reached(g, x, y, dx, dy, 7);
      ReachedOnRay(g, x, y, dx, dy, 7, t);
    }
  }

  /** In attack mode a piece lists every square its generator visits, none with a suffix. */
  lemma PseudoListed(pos: Position, id: nat)
    requires Ready(pos, id, false)
    ensures Targets(pos, id, false) == Candidates(pos, pos.arena[id])
    ensures Listed(pos, id, false) == Spelled(pos.arena[id].at, Candidates(pos, pos.arena[id]))
  {
    var p := pos.arena[id];
    if p.kind != 'P' {
      forall t | t in Candidates(pos, p)
        ensures t in Kept(pos, id, false)
      {
        CandidatesOnBoard(pos, p, t);
        KeptIff(pos, id, false, t);
      }
    }
    assert forall t | t in Candidates(pos, p) :: !Promo(p, t);
  }

  /** GetMoves(side, false) lists exactly the attack-mode moves. */
  lemma {:induction false} AllMovesPseudo(pos: Position, side: int, n: nat)
    requires SideReady(pos, side, false) && n <= |pos.lists[side]|
    ensures AllMoves(pos, side, false, n) == AttackMoves(pos, side, n)
  {
    if n > 0 {
      AllMovesPseudo(pos, side, n - 1);
      PseudoListed(pos, pos.lists[side][n - 1]);
    }
  }

  /** Every listed target is on the board. */
  lemma TargetsOnBoard(pos: Position, id: nat, legal: bool, t: Sq)
    requires Ready(pos, id, legal) && t in Targets(pos, id, legal)
    ensures InBoard(t.x, t.y)
  {
    var p := pos.arena[id];
    if p.kind == 'K' {
      if !legal || t !in Castles(pos, id) {
        assert t in KingSquares(p.at.x, p.at.y);
      }
    } else if p.kind == 'P' {
      assert 0 <= p.at.y + Dir(p.team) < 8;
      if t !in Diagonal(pos, id, legal, p.at.x + 1) + Diagonal(pos, id, legal, p.at.x - 1) {
        assert t in PushTargets(pos, id, legal);
      }
    } else {
      CandidatesOnBoard(pos, p, t);
    }
  }

  /** Every listed move starts on its piece's tile, ends on the board, and has a text. */
  lemma {:induction false} AllMovesOnBoard(pos: Position, side: int, legal: bool, n: nat, m: Move)
    requires SideReady(pos, side, legal) && n <= |pos.lists[side]| && m in AllMoves(pos, side, legal, n)
    ensures OnBoard(m)
  {
    assert n > 0;
    var id := pos.lists[side][n - 1];
    assert AllMoves(pos, side, legal, n) == AllMoves(pos, side, legal, n - 1) + Listed(pos, id, legal);
    if m in Listed(pos, id, legal) {
      ListedOnBoard(pos, id, legal, m);
    } else {
      AllMovesOnBoard(pos, side, legal, n - 1, m);
    }
  }

  /**
   * In legal mode a king (other than by castling), queen, rook, bishop or
   * knight never lists a tile holding its own team, and every such listed
   * move passes the trial.
   */
  lemma LegalNeverOwn(pos: Position, id: nat, t: Sq)
    requires Ready(pos, id, true) && pos.arena[id].kind != 'P' && t in Targets(pos, id, true)
    requires pos.arena[id].kind == 'K' ==> t !in Castles(pos, id)
    ensures InBoard(t.x, t.y) && TileCheck(pos, pos.arena[id].team, t) != 0 && Safe(pos, id, t)
  {
    KeptIff(pos, id, true, t);
  }

  /**
   * Both castling branches list the c-file square of the king's back rank;
   * the king-side branch never looks at that square's tile.
   */
  lemma CastlesOnC(pos: Position, id: nat, t: Sq)
    requires Ready(pos, id, true) && pos.arena[id].kind == 'K' && t in Castles(pos, id)
    ensures t == Sq(2, Home(pos.arena[id].team))
    ensures !pos.arena[id].moved && !InCheck(pos, pos.arena[id].team, None)
  {
  }

  /**
   * A sliding ray lists a square only if every square before it is empty:
   * at most six squares for the queen and the bishop, seven for the rook.
   */
  lemma SliderRange(pos: Position, p: Piece, t: Sq)
    requires IsGrid(pos.board) && InBoard(p.at.x, p.at.y) && (p.kind == 'Q' || p.kind == 'R' || p.kind == 'B')
    requires t in Candidates(pos, p)
    ensures var n := if p.kind == 'R' then 7 else 6;
      exists dx, dy, k :: IsDirection(dx, dy) && 1 <= k <= n && t == Step(p.at.x, p.at.y, dx, dy, k) &&
        InBoard(t.x, t.y) && Open(pos.board, p.at.x, p.at.y, dx, dy, k - 1)
    ensures p.kind == 'R' ==> t.x == p.at.x || t.y == p.at.y
    ensures p.kind == 'B' ==> t.x - p.at.x == t.y - p.at.y || t.x - p.at.x == p.at.y - t.y
  {
    var g, x, y := pos.board, p.at.x, p.at.y;
    var n := if p.kind == 'R' then 7 else 6;
    var dx, dy :| IsDirection(dx, dy) && (p.kind == 'R' ==> dx == 0 || dy == 0) &&
      (p.kind == 'B' ==> dx != 0 && dy != 0) && t in Reached(g, x, y, dx, dy, n);
    ReachedOnRay(g, x, y, dx, dy, n, t);
  }

  /**
   * A pawn's straight moves in legal mode: a push goes onto an empty tile
   * straight ahead; a double push needs an unmoved pawn whose single push
   * is listed and an empty tile two squares ahead.
   */
  lemma PawnPushes(pos: Position, id: nat, t: Sq)
    requires Ready(pos, id, true) && pos.arena[id].kind == 'P' && t in Targets(pos, id, true)
    requires t.x == pos.arena[id].at.x
    ensures var p, d := pos.arena[id], Dir(pos.arena[id].team);
      InBoard(t.x, t.y) && Safe(pos, id, t) && TileCheck(pos, p.team, t) == 2 &&
      (t == Sq(p.at.x, p.at.y + d) || t == Sq(p.at.x, p.at.y + 2 * d)) &&
      (t == Sq(p.at.x, p.at.y + 2 * d) ==> !p.moved && Sq(p.at.x, p.at.y + d) in Targets(pos, id, true))
  {
    var p, d := pos.arena[id], Dir(pos.arena[id].team);
    var f, f2 := Sq(p.at.x, p.at.y + d), Sq(p.at.x, p.at.y + 2 * d);
    assert 0 <= p.at.y + d < 8;
    assert t !in Diagonal(pos, id, true, p.at.x + 1) + Diagonal(pos, id, true, p.at.x - 1);
    assert Pushes(pos, id, f) && f in Targets(pos, id, true);
    if t != f {
      assert t == f2 && !p.moved && Pushes(pos, id, f2);
    }
  }

  /**
   * A pawn's diagonal in legal mode goes one file aside onto the rank ahead,
   * onto another team's piece or onto the file of the en-passant test.
   */
  lemma PawnDiagonals(pos: Position, id: nat, t: Sq)
    requires Ready(pos, id, true) && pos.arena[id].kind == 'P' && t in Targets(pos, id, true)
    requires t.x != pos.arena[id].at.x
    ensures var p, d := pos.arena[id], Dir(pos.arena[id].team);
      InBoard(t.x, t.y) && Safe(pos, id, t) &&
      (t.x == p.at.x + 1 || t.x == p.at.x - 1) && t.y == p.at.y + d &&
      (TileCheck(pos, p.team, t) == 1 || pos.ep == File(t.x))
  {
    var p := pos.arena[id];
    assert 0 <= p.at.y + Dir(p.team) < 8;
    assert t !in PushTargets(pos, id, true);
    if t in Diagonal(pos, id, true, p.at.x + 1) {
      DiagonalMember(pos, id, p.at.x + 1, t);
    } else {
      DiagonalMember(pos, id, p.at.x - 1, t);
    }
  }

  /** A diagonal square a pawn lists in legal mode is on the board, passes the trial and holds an opponent or is the en-passant file. */
  lemma DiagonalMember(pos: Position, id: nat, i: int, t: Sq)
    requires Ready(pos, id, true) && 0 <= pos.arena[id].at.y + Dir(pos.arena[id].team) < 8
    requires t in Diagonal(pos, id, true, i)
    ensures t == Sq(i, pos.arena[id].at.y + Dir(pos.arena[id].team)) && InBoard(t.x, t.y) && Safe(pos, id, t) &&
      (TileCheck(pos, pos.arena[id].team, t) == 1 || pos.ep == File(t.x))
  {
  }

  /** In attack mode a pawn lists exactly the diagonals ahead that are on the board, and never its push. */
  lemma PawnAttackOnly(pos: Position, id: nat, t: Sq)
    requires Ready(pos, id, false) && pos.arena[id].kind == 'P'
    ensures var p, d := pos.arena[id], Dir(pos.arena[id].team);
      t in Targets(pos, id, false) <==>
        InBoard(t.x, t.y) && (t.x == p.at.x + 1 || t.x == p.at.x - 1) && t.y == p.at.y + d
  {
  }

  /** The moves of `ts` from the tile `from`, in order, each with the suffix the piece `p` gives it. */
  function Spell(p: Piece, ts: seq<Sq>): (ms: seq<Move>)
    ensures |ms| == |ts|
    ensures forall i | 0 <= i < |ts| :: ms[i] == Move(p.at, ts[i], Promo(p, ts[i]))
  {
    seq(|ts|, i requires 0 <= i < |ts| => Move(p.at, ts[i], Promo(p, ts[i])))
  }

  /** The spelled moves are the moves to the listed squares. */
  lemma SpellSet(p: Piece, ts: seq<Sq>)
    ensures (set m | m in Spell(p, ts)) == set t | t in Squares(ts) :: Move(p.at, t, Promo(p, t))
  {
    var ms := Spell(p, ts);
    forall m | m in ms
      ensures m in set t | t in Squares(ts) :: Move(p.at, t, Promo(p, t))
    {
      var i :| 0 <= i < |ms| && ms[i] == m;
      SquaresIn(ts, ts[i]);
    }
    forall t | t in Squares(ts)
      ensures Move(p.at, t, Promo(p, t)) in ms
    {
      SquaresIn(ts, t);
      var i :| 0 <= i < |ts| && ts[i] == t;
      assert ms[i] == Move(p.at, t, Promo(p, t));
    }
  }

  /** The remainder of C#'s `%`, which truncates toward zero: negative for a negative dividend. */
  function CsMod(a: int, n: int): (r: int)
    requires n > 0
    ensures -n < r < n && (a >= 0 ==> r == a % n)
  {
    if a >= 0 then a % n else -((-a) % n)
  }

  /** The move texts' tails: what the castling test compares back-rank square names against. */
  lemma TailsAttacked(pos: Position, side: int, moves: seq<Move>, tails: seq<string>, t: Sq)
    requires Sane(pos) && 0 <= side < 2 && InBoard(t.x, t.y)
    requires (set m | m in moves) == AttackMoves(pos, side, |pos.lists[side]|)
    requires forall i | 0 <= i < |moves| :: OnBoard(moves[i])
    requires |tails| == |moves| && forall i | 0 <= i < |moves| :: tails[i] == Text(moves[i])[2..]
    ensures SquareName(t) in tails <==> Attacked(pos, side, t)
  {
    if SquareName(t) in tails {
      var i :| 0 <= i < |tails| && tails[i] == SquareName(t);
      TailNames(moves[i], t);
      assert moves[i] in AttackMoves(pos, side, |pos.lists[side]|);
    }
    if Attacked(pos, side, t) {
      var m :| m in AttackMoves(pos, side, |pos.lists[side]|) && m.to == t && !m.queen;
      assert m in moves;
      var i :| 0 <= i < |moves| && moves[i] == m;
      TailNames(moves[i], t);
      assert tails[i] == SquareName(t);
    }
  }

  /** Every move of a generated list has a text. */
  lemma MovesOnBoard(pos: Position, side: int, legal: bool, moves: seq<Move>)
    requires SideReady(pos, side, legal) && (set m | m in moves) == AllMoves(pos, side, legal, |pos.lists[side]|)
    ensures forall i | 0 <= i < |moves| :: OnBoard(moves[i])
  {
    forall i | 0 <= i < |moves|
      ensures OnBoard(moves[i])
    {
      assert moves[i] in (set m | m in moves);
      AllMovesOnBoard(pos, side, legal, |pos.lists[side]|, moves[i]);
    }
  }

  /** The castling test cuts each of the other team's move texts to its last two or three characters. */
  method Tails(moves: seq<Move>) returns (tails: seq<string>)
    requires forall i | 0 <= i < |moves| :: OnBoard(moves[i])
    ensures |tails| == |moves| && forall i | 0 <= i < |moves| :: tails[i] == Text(moves[i])[2..]
  {
    tails := [];
    for i := 0 to |moves|
      invariant |tails| == i && forall j | 0 <= j < i :: tails[j] == Text(moves[j])[2..]
    {
      tails := tails + [Text(moves[i])[2..]];
    }
  }

  // ---------------------------------------------------------------------
  // Applying a move
  // ---------------------------------------------------------------------

  /** The fields `MovePiece` writes, as values. */
  datatype Fields = Fields(board: seq<seq<Option<nat>>>, arena: seq<Piece>, lists: seq<seq<nat>>,
                           halfMoves: int, moveList: seq<string>, enPassant: bool)

  /** The position the fields describe, with the given en-passant reading. */
  function At(f: Fields, ep: Passant): Position {
    Position(f.board, f.arena, f.lists, ep)
  }

  function Abs(v: int): int {
    if v < 0 then -v else v
  }

  /** char.IsUpper and char.ToUpper, on the ASCII letters. */
  predicate IsUpper(c: char) {
    'A' <= c <= 'Z'
  }

  function Upper(c: char): (r: char)
    ensures 'a' <= c <= 'z' ==> IsUpper(r) && r as int == c as int - 32
    ensures !('a' <= c <= 'z') ==> r == c
  {
    if 'a' <= c <= 'z' then (c as int - 32) as char else c
  }

  /** List.Remove: the list without the first occurrence of `v`, if any. */
  function Without(l: seq<nat>, v: nat): (r: seq<nat>)
    ensures forall w | w in r :: w in l
  {
    if |l| == 0 then []
    else if l[0] == v then l[1..]
    else [l[0]] + Without(l[1..], v)
  }

  /** Removing an element takes exactly one copy of it out of the list, and nothing else. */
  lemma {:induction false} WithoutCount(l: seq<nat>, v: nat)
    ensures multiset(Without(l, v)) == multiset(l) - multiset{v}
  {
    if |l| > 0 {
      assert l == [l[0]] + l[1..];
      if l[0] != v {
        WithoutCount(l[1..], v);
      }
    }
  }

  /** A list without duplicates loses the removed element entirely. */
  lemma WithoutGone(l: seq<nat>, v: nat)
    requires multiset(l)[v] <= 1
    ensures v !in Without(l, v)
    ensures v in l ==> |Without(l, v)| == |l| - 1
    ensures v !in l ==> Without(l, v) == l
  {
    WithoutCount(l, v);
    assert v in Without(l, v) <==> v in multiset(Without(l, v));
    assert |multiset(Without(l, v))| == |Without(l, v)|;
    if v !in l {
      WithoutAbsent(l, v);
    }
  }

  lemma {:induction false} WithoutAbsent(l: seq<nat>, v: nat)
    requires v !in l
    ensures Without(l, v) == l
  {
    if |l| > 0 {
      assert l[0] in l;
      assert forall w | w in l[1..] :: w in l;
      WithoutAbsent(l[1..], v);
      assert l == [l[0]] + l[1..];
    }
  }

  /** When `v` first occurs at index `i`, removing it splices the list around `i`. */
  lemma {:induction false} WithoutSplit(l: seq<nat>, v: nat, i: nat)
    requires i < |l| && l[i] == v && v !in l[..i]
    ensures Without(l, v) == l[..i] + l[i + 1..]
  {
    if i > 0 {
      assert l[0] in l[..i];
      assert l[1..][..i - 1] == l[1..i];
      assert forall w | w in l[1..i] :: w in l[..i];
      WithoutSplit(l[1..], v, i - 1);
      assert l[1..][i..] == l[i + 1..];
      assert [l[0]] + l[1..i] == l[..i];
    }
  }

  /** What List.Remove does for a tile that may be empty: removing null finds nothing. */
  function WithoutTile(l: seq<nat>, o: Option<nat>): seq<nat> {
    if o.Some? then Without(l, o.value) else l
  }

  /** The rank behind a pawn's target, where the en-passant victim stands. */
  function Back(team: int): int {
    if team == 0 then -1 else 1
  }

  /** A pawn promotes on the last rank of its team. */
  predicate Promotes(p: Piece, t: Sq) {
    (p.team == 0 && t.y == 7) || (p.team == 1 && t.y == 0)
  }

  /** The en-passant capture: a pawn stepping one file aside onto an empty tile. */
  predicate TakesPassing(f: Fields, id: nat, t: Sq)
    requires IsGrid(f.board) && id < |f.arena| && InBoard(t.x, t.y)
  {
    f.arena[id].kind == 'P' && f.board[t.x][t.y].None? && Abs(t.x - f.arena[id].at.x) == 1 &&
    0 <= t.y + Back(f.arena[id].team) < 8
  }

  /**
   * The pawn's part of MovePiece: the half-move counter restarts, an
   * en-passant capture takes the piece behind the target out of the list of
   * `opp` and off its tile, and a pawn reaching the last rank changes its
   * type to the promotion letter.
   */
  function PawnPart(f: Fields, id: nat, t: Sq, opp: int, promo: char): (r: Fields)
    requires IsGrid(f.board) && |f.lists| == 2 && id < |f.arena| && InBoard(t.x, t.y) && 0 <= opp < 2
    ensures IsGrid(r.board) && |r.lists| == 2 && |r.arena| == |f.arena| && r.halfMoves == 0
    ensures r.board[t.x][t.y] == f.board[t.x][t.y] && r.moveList == f.moveList
    ensures r.arena[id] == if Promotes(f.arena[id], t) then f.arena[id].(kind := promo) else f.arena[id]
    ensures forall j | 0 <= j < |f.arena| && j != id :: r.arena[j] == f.arena[j]
  {
    var p := f.arena[id];
    var f1 := f.(halfMoves := 0);
    var f2 :=
      if TakesPassing(f, id, t) then
        var e := Sq(t.x, t.y + Back(p.team));
        f1.(lists := f1.lists[opp := WithoutTile(f1.lists[opp], f1.board[e.x][e.y])], board := SetCell(f1.board, e.x, e.y, None))
      else f1;
    if Promotes(p, t) then f2.(arena := f2.arena[id := p.(kind := promo)]) else f2
  }

  /** A capture: the target's piece leaves the list of `opp`, and the half-move counter restarts. */
  function Capture(f: Fields, t: Sq, opp: int): Fields
    requires IsGrid(f.board) && |f.lists| == 2 && InBoard(t.x, t.y) && 0 <= opp < 2
  {
    if f.board[t.x][t.y].Some? then
      f.(halfMoves := 0, lists := f.lists[opp := Without(f.lists[opp], f.board[t.x][t.y].value)])
    else f
  }

  /** A king moving two files castles. */
  predicate Castling(f: Fields, id: nat, t: Sq)
    requires id < |f.arena|
  {
    f.arena[id].kind == 'K' && Abs(f.arena[id].at.x - t.x) == 2
  }

  /** The rook's corner and landing file: the h-file to f when the king lands on g, the a-file to d otherwise. */
  function Corner(t: Sq): int {
    if t.x == 6 then 7 else 0
  }

  function Landing(t: Sq): int {
    if t.x == 6 then 5 else 3
  }

  /** Castling moves the piece on the corner tile to the landing tile and empties the corner. */
  function CastleRook(f: Fields, id: nat, t: Sq): (r: Fields)
    requires Sane(At(f, Off)) && id < |f.arena| && InBoard(t.x, t.y)
    requires Castling(f, id, t) ==> f.board[Corner(t)][t.y].Some?
    ensures Sane(At(r, Off)) && |r.arena| == |f.arena|
    ensures Placed(At(f, Off), id) ==> Placed(At(r, Off), id)
  {
    if Castling(f, id, t) then
      var r := f.board[Corner(t)][t.y].value;
      var board := SetCell(SetCell(f.board, Landing(t), t.y, Some(r)), Corner(t), t.y, None);
      f.(arena := f.arena[r := f.arena[r].(at := Sq(Landing(t), t.y))], board := board)
    else f
  }

  /** The piece leaves its tile for the target and is marked as moved. */
  function Relocate(f: Fields, id: nat, t: Sq): Fields
    requires IsGrid(f.board) && id < |f.arena| && InBoard(f.arena[id].at.x, f.arena[id].at.y) && InBoard(t.x, t.y)
  {
    var p := f.arena[id];
    var cleared := SetCell(f.board, p.at.x, p.at.y, None);
    f.(board := SetCell(cleared, t.x, t.y, Some(id)), arena := f.arena[id := p.(at := t, moved := true)])
  }

  /** The text before the check mark: castling as `O-O` or `O-O-O`, otherwise the piece letter (the origin file for a pawn capture), `x` on a capture, and the target. */
  function Notation(p: Piece, castles: bool, takes: bool, t: Sq): string
    requires InBoard(p.at.x, p.at.y) && InBoard(t.x, t.y)
  {
    if castles then "O-O" + (if t.x == 2 then "-O" else "")
    else
      (if p.kind == 'P' then (if p.at.x != t.x then [('a' as int + p.at.x) as char] else []) else [p.kind]) +
      (if takes then "x" else "") + SquareName(t)
  }

  /** The fields after the pawn branch (a no-op for other pieces). */
  function PawnFirst(f: Fields, id: nat, t: Sq, opp: int, promo: char): Fields
    requires IsGrid(f.board) && |f.lists| == 2 && id < |f.arena| && InBoard(t.x, t.y) && 0 <= opp < 2
  {
    if f.arena[id].kind == 'P' then PawnPart(f, id, t, opp, promo) else f
  }

  /** What MovePiece needs of the fields to apply a listed move without failing. */
  ghost predicate Playable(f: Fields, id: nat, t: Sq, opp: int, promo: char) {
    Sane(At(f, Off)) && Placed(At(f, Off), id) && InBoard(t.x, t.y) && 0 <= opp < 2 &&
    var f1 := PawnFirst(f, id, t, opp, promo);
    Castling(f1, id, t) ==> f1.board[Corner(t)][t.y].Some?
  }

  /** The fields after the pawn branch, the capture, the castling rook and the relocation of MovePiece. */
  function Moved(f: Fields, id: nat, t: Sq, opp: int, promo: char): (r: Fields)
    requires Playable(f, id, t, opp, promo)
    ensures Sane(At(r, Off))
  {
    var f1 := PawnFirst(f, id, t, opp, promo);
    PawnPartSane(f, id, t, opp, promo);
    var f2 := Capture(f1, t, opp);
    CaptureSane(f1, t, opp);
    var f3 := CastleRook(f2, id, t);
    RelocateSane(f3, id, t);
    Relocate(f3, id, t)
  }

  /** The text MovePiece builds before the check mark. */
  function MoveText(f: Fields, id: nat, t: Sq, opp: int, promo: char): string
    requires Playable(f, id, t, opp, promo)
  {
    var f1 := PawnFirst(f, id, t, opp, promo);
    Notation(f.arena[id], Castling(f1, id, t), f1.board[t.x][t.y].Some?, t)
  }

  /**
   * A successful MovePiece of arena entry `id` to `t`, with `opp` the list
   * captures are taken from: the moved fields, the text with `+` when `opp`
   * is now in check appended to the move list, and the en-passant flag off.
   */
  ghost function Play(f: Fields, id: nat, t: Sq, opp: int, promo: char, ep: Passant): Fields
    requires Playable(f, id, t, opp, promo)
  {
    var g := Moved(f, id, t, opp, promo);
    var check := InCheck(At(g, ep), opp, None);
    g.(moveList := g.moveList + [MoveText(f, id, t, opp, promo) + (if check then "+" else "")], enPassant := false)
  }

  /** Each step of MovePiece keeps every referenced piece placed, so CheckCheck can run afterwards. */
  lemma PawnPartSane(f: Fields, id: nat, t: Sq, opp: int, promo: char)
    requires Sane(At(f, Off)) && id < |f.arena| && InBoard(t.x, t.y) && 0 <= opp < 2
    ensures f.arena[id].kind == 'P' ==> Sane(At(PawnPart(f, id, t, opp, promo), Off))
  {
    if f.arena[id].kind == 'P' {
      var r := PawnPart(f, id, t, opp, promo);
      forall v | Placed(At(f, Off), v)
        ensures Placed(At(r, Off), v)
      {
      }
      forall s, i | 0 <= s < 2 && 0 <= i < |r.lists[s]|
        ensures Placed(At(r, Off), r.lists[s][i])
      {
        assert r.lists[s][i] in r.lists[s];
        assert r.lists[s][i] in f.lists[s];
      }
    }
  }

  lemma CaptureSane(f: Fields, t: Sq, opp: int)
    requires Sane(At(f, Off)) && InBoard(t.x, t.y) && 0 <= opp < 2
    ensures Sane(At(Capture(f, t, opp), Off))
  {
    var r := Capture(f, t, opp);
    forall s, i | 0 <= s < 2 && 0 <= i < |r.lists[s]|
      ensures Placed(At(r, Off), r.lists[s][i])
    {
      assert r.lists[s][i] in r.lists[s];
      assert r.lists[s][i] in f.lists[s];
    }
  }

  lemma RelocateSane(f: Fields, id: nat, t: Sq)
    requires Sane(At(f, Off)) && Placed(At(f, Off), id) && InBoard(t.x, t.y)
    ensures Sane(At(Relocate(f, id, t), Off))
  {
  }


  /** The text before the check mark is never empty and never ends in `+`: it ends in `O` or in the target's rank digit. */
  lemma NotationEnd(p: Piece, castles: bool, takes: bool, t: Sq)
    requires InBoard(p.at.x, p.at.y) && InBoard(t.x, t.y)
    ensures var s := Notation(p, castles, takes, t);
      |s| >= 2 && (if castles then s[|s| - 1] == 'O' else IsRank(s[|s| - 1]))
  {
    if !castles {
      var lead := (if p.kind == 'P' then (if p.at.x != t.x then [('a' as int + p.at.x) as char] else []) else [p.kind]) +
        (if takes then "x" else "");
      assert Notation(p, castles, takes, t) == lead + SquareName(t);
    }
  }

  /** After a move the piece stands on the target, points at it and is marked as moved; unless it moved two files (a castling), its old tile is empty. */
  lemma PlayLands(f: Fields, id: nat, t: Sq, opp: int, promo: char, ep: Passant)
    requires Playable(f, id, t, opp, promo)
    ensures var r := Play(f, id, t, opp, promo, ep);
      r.board[t.x][t.y] == Some(id) && r.arena[id].at == t && r.arena[id].moved &&
      r.arena[id].team == f.arena[id].team && |r.arena| == |f.arena| &&
      (f.arena[id].at != t && Abs(f.arena[id].at.x - t.x) != 2 ==> r.board[f.arena[id].at.x][f.arena[id].at.y] == None)
  {
    var f1 := PawnFirst(f, id, t, opp, promo);
    PawnPartSane(f, id, t, opp, promo);
    var f2 := Capture(f1, t, opp);
    CaptureSane(f1, t, opp);
    var f3 := CastleRook(f2, id, t);
    RelocateLands(f3, id, t);
    assert f3.arena[id].team == f.arena[id].team;
    if Abs(f.arena[id].at.x - t.x) != 2 {
      assert f3 == f2;
      assert f2.arena[id].at == f.arena[id].at;
    }
  }

  /** The relocation puts the piece on `t`, marks it moved and clears the tile it left. */
  lemma RelocateLands(f: Fields, id: nat, t: Sq)
    requires IsGrid(f.board) && id < |f.arena| && InBoard(f.arena[id].at.x, f.arena[id].at.y) && InBoard(t.x, t.y)
    ensures var r, p := Relocate(f, id, t), f.arena[id];
      r.board[t.x][t.y] == Some(id) && r.arena[id] == p.(at := t, moved := true) && |r.arena| == |f.arena| &&
      (p.at != t ==> r.board[p.at.x][p.at.y] == None)
  {
  }

  /** A pawn reaching its last rank takes the promotion letter; every other move keeps the piece's kind. */
  lemma PlayPromotes(f: Fields, id: nat, t: Sq, opp: int, promo: char, ep: Passant)
    requires Playable(f, id, t, opp, promo)
    ensures Play(f, id, t, opp, promo, ep).arena[id].kind ==
      if f.arena[id].kind == 'P' && Promotes(f.arena[id], t) then promo else f.arena[id].kind
  {
  }

  /** Pieces other than the mover and a castling rook on the corner keep their records. */
  lemma PlayKeepsOthers(f: Fields, id: nat, t: Sq, opp: int, promo: char, ep: Passant, j: nat)
    requires Playable(f, id, t, opp, promo) && j < |f.arena| && j != id
    requires Abs(f.arena[id].at.x - t.x) == 2 ==> f.board[Corner(t)][t.y] != Some(j)
    ensures Play(f, id, t, opp, promo, ep).arena[j] == f.arena[j]
  {
    var f1 := PawnFirst(f, id, t, opp, promo);
    PawnPartSane(f, id, t, opp, promo);
    var f2 := Capture(f1, t, opp);
    CaptureSane(f1, t, opp);
    CastleRookKeeps(f2, id, t, j);
    if f.arena[id].kind == 'P' {
      assert f1.board[Corner(t)][t.y] in {f.board[Corner(t)][t.y], None};
    }
    assert CastleRook(f2, id, t).arena[j] == f.arena[j];
  }

  lemma CastleRookKeeps(f: Fields, id: nat, t: Sq, j: nat)
    requires Sane(At(f, Off)) && id < |f.arena| && InBoard(t.x, t.y) && j < |f.arena|
    requires Castling(f, id, t) ==> f.board[Corner(t)][t.y].Some?
    requires Castling(f, id, t) ==> f.board[Corner(t)][t.y] != Some(j)
    ensures CastleRook(f, id, t).arena[j] == f.arena[j]
  {
  }

  /** A capture on the target takes the captured piece's first entry out of the list of `opp`, gone for good when it was listed once; the other list is untouched. */
  lemma PlayCaptures(f: Fields, id: nat, t: Sq, opp: int, promo: char, ep: Passant)
    requires Playable(f, id, t, opp, promo) && f.board[t.x][t.y].Some?
    ensures var r, v := Play(f, id, t, opp, promo, ep), f.board[t.x][t.y].value;
      r.lists[opp] == Without(f.lists[opp], v) && r.lists[1 - opp] == f.lists[1 - opp] &&
      (multiset(f.lists[opp])[v] <= 1 ==> v !in r.lists[opp])
  {
    var v := f.board[t.x][t.y].value;
    var f1 := PawnFirst(f, id, t, opp, promo);
    PawnPartSane(f, id, t, opp, promo);
    assert f1.lists == f.lists && f1.board[t.x][t.y] == f.board[t.x][t.y];
    if multiset(f.lists[opp])[v] <= 1 {
      WithoutGone(f.lists[opp], v);
    }
  }

  /** En passant: a pawn stepping aside onto an empty tile takes the piece behind the target off its tile and out of the list of `opp`. */
  lemma PlayPassing(f: Fields, id: nat, t: Sq, opp: int, promo: char, ep: Passant)
    requires Playable(f, id, t, opp, promo) && TakesPassing(f, id, t)
    ensures var r, e := Play(f, id, t, opp, promo, ep), Sq(t.x, t.y + Back(f.arena[id].team));
      r.board[e.x][e.y] == None && r.lists[opp] == WithoutTile(f.lists[opp], f.board[e.x][e.y]) &&
      r.lists[1 - opp] == f.lists[1 - opp]
  {
  }

  /** The half-move counter restarts on a pawn move or a capture and is kept otherwise. */
  lemma PlayHalfMoves(f: Fields, id: nat, t: Sq, opp: int, promo: char, ep: Passant)
    requires Playable(f, id, t, opp, promo)
    ensures Play(f, id, t, opp, promo, ep).halfMoves ==
      if f.arena[id].kind == 'P' || f.board[t.x][t.y].Some? then 0 else f.halfMoves
  {
  }

  /** Castling to the c- or g-file: the corner's piece stands on the landing tile and points at it, the corner is empty, and the text is `O-O-O` or `O-O`. */
  lemma PlayCastles(f: Fields, id: nat, t: Sq, opp: int, promo: char, ep: Passant)
    requires Playable(f, id, t, opp, promo) && Castling(f, id, t) && (t.x == 2 || t.x == 6)
    requires f.board[Corner(t)][t.y] != Some(id)
    ensures var r, rook := Play(f, id, t, opp, promo, ep), f.board[Corner(t)][t.y].value;
      r.arena[rook].at == Sq(Landing(t), t.y) && r.board[Landing(t)][t.y] == Some(rook) &&
      r.board[Corner(t)][t.y] == None &&
      MoveText(f, id, t, opp, promo) == if t.x == 2 then "O-O-O" else "O-O"
  {
  }

  /** A move appends exactly one text and clears the en-passant flag; the text ends in `+` exactly when `opp` is in check afterwards. */
  lemma PlayRecords(f: Fields, id: nat, t: Sq, opp: int, promo: char, ep: Passant)
    requires Playable(f, id, t, opp, promo)
    ensures var r := Play(f, id, t, opp, promo, ep);
      |r.moveList| == |f.moveList| + 1 && r.moveList[..|f.moveList|] == f.moveList && !r.enPassant &&
      var s := r.moveList[|f.moveList|];
      |s| >= 2 && (s[|s| - 1] == '+' <==> InCheck(At(Moved(f, id, t, opp, promo), ep), opp, None))
  {
    var f1 := PawnFirst(f, id, t, opp, promo);
    NotationEnd(f.arena[id], Castling(f1, id, t), f1.board[t.x][t.y].Some?, t);
  }

  // ---------------------------------------------------------------------
  // Readiness across moves
  // ---------------------------------------------------------------------

  /** Every occupied tile names a piece that stands on that tile. */
  ghost predicate Tiled(f: Fields)
    requires Sane(At(f, Off))
  {
    forall x, y | InBoard(x, y) && f.board[x][y].Some? :: f.arena[f.board[x][y].value].at == Sq(x, y)
  }

  /**
   * What `Update` and the next MovePiece rely on between moves: every tile
   * names the piece standing on it, and every listed piece stands on the
   * tile that names it, plays for the team of its list, appears in that
   * list once, and can generate legal moves.
   */
  ghost predicate Settled(f: Fields) {
    Sane(At(f, Off)) && Tiled(f) &&
    forall s, i | 0 <= s < 2 && 0 <= i < |f.lists[s]| ::
      Seated(At(f, Off), f.lists[s][i]) && f.arena[f.lists[s][i]].team == s &&
      multiset(f.lists[s])[f.lists[s][i]] == 1 && Generable(f.arena[f.lists[s][i]], true)
  }

  /**
   * A move takes nothing but pieces of `opp`: the piece on the target and
   * the piece behind an en-passant target belong to `opp`, and a castling
   * goes to the c- or g-file with the rook's landing tile empty.
   */
  ghost predicate TakesOnly(f: Fields, id: nat, t: Sq, opp: int, promo: char)
    requires Playable(f, id, t, opp, promo)
  {
    var f1 := PawnFirst(f, id, t, opp, promo);
    (f.board[t.x][t.y].Some? ==> f.arena[f.board[t.x][t.y].value].team == opp) &&
    (TakesPassing(f, id, t) ==>
       var e := f.board[t.x][t.y + Back(f.arena[id].team)];
       e.Some? ==> f.arena[e.value].team == opp) &&
    (Castling(f1, id, t) ==> (t.x == 2 || t.x == 6) && f1.board[Landing(t)][t.y] == None)
  }

  /** `Settled` in the middle of a move: the mover `id` is seated and need not yet be able to generate. */
  ghost predicate Orderly(f: Fields, id: nat) {
    Sane(At(f, Off)) && Tiled(f) && Placed(At(f, Off), id) && Seated(At(f, Off), id) &&
    forall s, i | 0 <= s < 2 && 0 <= i < |f.lists[s]| ::
      Seated(At(f, Off), f.lists[s][i]) && f.arena[f.lists[s][i]].team == s &&
      multiset(f.lists[s])[f.lists[s][i]] == 1 &&
      (f.lists[s][i] != id ==> Generable(f.arena[f.lists[s][i]], true))
  }

  /** No listed piece other than `id` stands on `t`. */
  ghost predicate Vacated(f: Fields, id: nat, t: Sq)
    requires Sane(At(f, Off))
  {
    forall s, i | 0 <= s < 2 && 0 <= i < |f.lists[s]| && f.lists[s][i] != id :: f.arena[f.lists[s][i]].at != t
  }

  /** Removing a piece from a list that holds each entry once keeps the rest once and drops the piece. */
  lemma WithoutOnce(l: seq<nat>, v: nat)
    requires forall i | 0 <= i < |l| :: multiset(l)[l[i]] == 1
    ensures forall i | 0 <= i < |Without(l, v)| :: multiset(Without(l, v))[Without(l, v)[i]] == 1
    ensures v !in Without(l, v)
  {
    WithoutCount(l, v);
    if v in l {
      var k :| 0 <= k < |l| && l[k] == v;
    }
    WithoutGone(l, v);
    forall i | 0 <= i < |Without(l, v)|
      ensures multiset(Without(l, v))[Without(l, v)[i]] == 1
    {
      var w := Without(l, v)[i];
      assert w in Without(l, v);
      var k :| 0 <= k < |l| && l[k] == w;
      assert w in multiset(Without(l, v));
    }
  }

  /** The pawn branch keeps the lists in order: an en-passant victim of `opp` leaves its tile and its list. */
  lemma PawnFirstOrderly(f: Fields, id: nat, t: Sq, opp: int, promo: char)
    requires Settled(f) && Playable(f, id, t, opp, promo) && Seated(At(f, Off), id) && TakesOnly(f, id, t, opp, promo)
    ensures var f1 := PawnFirst(f, id, t, opp, promo);
      Orderly(f1, id) && f1.board[t.x][t.y] == f.board[t.x][t.y] && |f1.arena| == |f.arena| &&
      forall j | 0 <= j < |f.arena| :: f1.arena[j].team == f.arena[j].team
  {
    if f.arena[id].kind == 'P' {
      var p := f.arena[id];
      var e := Sq(t.x, t.y + Back(p.team));
      var f2 := if TakesPassing(f, id, t) then
          f.(halfMoves := 0, lists := f.lists[opp := WithoutTile(f.lists[opp], f.board[e.x][e.y])], board := SetCell(f.board, e.x, e.y, None))
        else f.(halfMoves := 0);
      if TakesPassing(f, id, t) {
        PassantOrderly(f, id, t, opp);
      }
      assert Orderly(f2, id);
      OrderlyRekind(f2, id, if Promotes(p, t) then promo else p.kind);
      assert PawnFirst(f, id, t, opp, promo) == f2.(arena := f2.arena[id := f2.arena[id].(kind := if Promotes(p, t) then promo else p.kind)]);
    }
  }

  /** The en-passant capture takes its victim, of `opp`, off its tile and out of its list, and keeps every other listed piece seated. */
  lemma PassantOrderly(f: Fields, id: nat, t: Sq, opp: int)
    requires Settled(f) && Placed(At(f, Off), id) && Seated(At(f, Off), id) && InBoard(t.x, t.y) && 0 <= opp < 2
    requires TakesPassing(f, id, t)
    requires var v := f.board[t.x][t.y + Back(f.arena[id].team)]; v.Some? ==> f.arena[v.value].team == opp
    ensures var e := Sq(t.x, t.y + Back(f.arena[id].team));
      Orderly(f.(halfMoves := 0, lists := f.lists[opp := WithoutTile(f.lists[opp], f.board[e.x][e.y])], board := SetCell(f.board, e.x, e.y, None)), id)
  {
    var e := Sq(t.x, t.y + Back(f.arena[id].team));
    var g := f.(halfMoves := 0, lists := f.lists[opp := WithoutTile(f.lists[opp], f.board[e.x][e.y])], board := SetCell(f.board, e.x, e.y, None));
    PassantTiles(f, id, t, opp, e, g);
    PassantLists(f, id, t, opp, e, g);
  }

  /** The victim's tile is emptied: the board still names placed pieces on their tiles, and the mover, one file away, keeps its tile. */
  lemma PassantTiles(f: Fields, id: nat, t: Sq, opp: int, e: Sq, g: Fields)
    requires Settled(f) && Placed(At(f, Off), id) && Seated(At(f, Off), id) && InBoard(t.x, t.y) && 0 <= opp < 2
    requires TakesPassing(f, id, t) && e == Sq(t.x, t.y + Back(f.arena[id].team))
    requires g == f.(halfMoves := 0, lists := f.lists[opp := WithoutTile(f.lists[opp], f.board[e.x][e.y])], board := SetCell(f.board, e.x, e.y, None))
    ensures Sane(At(g, Off)) && Tiled(g) && Placed(At(g, Off), id) && Seated(At(g, Off), id)
  {
    forall s, i | 0 <= s < 2 && 0 <= i < |g.lists[s]|
      ensures Placed(At(g, Off), g.lists[s][i])
    {
      assert g.lists[s][i] in g.lists[s];
      assert g.lists[s][i] in f.lists[s];
    }
  }

  /** Every piece still listed is seated, of its list's team, listed once, and as generable as before. */
  lemma PassantLists(f: Fields, id: nat, t: Sq, opp: int, e: Sq, g: Fields)
    requires Settled(f) && Placed(At(f, Off), id) && Seated(At(f, Off), id) && InBoard(t.x, t.y) && 0 <= opp < 2
    requires TakesPassing(f, id, t) && e == Sq(t.x, t.y + Back(f.arena[id].team))
    requires var v := f.board[e.x][e.y]; v.Some? ==> f.arena[v.value].team == opp
    requires g == f.(halfMoves := 0, lists := f.lists[opp := WithoutTile(f.lists[opp], f.board[e.x][e.y])], board := SetCell(f.board, e.x, e.y, None))
    requires Sane(At(g, Off))
    ensures forall s, i | 0 <= s < 2 && 0 <= i < |g.lists[s]| ::
      Seated(At(g, Off), g.lists[s][i]) && g.arena[g.lists[s][i]].team == s &&
      multiset(g.lists[s])[g.lists[s][i]] == 1 && (g.lists[s][i] != id ==> Generable(g.arena[g.lists[s][i]], true))
  {
    var v := f.board[e.x][e.y];
    WithoutOnce(f.lists[opp], if v.Some? then v.value else 0);
    forall s, i | 0 <= s < 2 && 0 <= i < |g.lists[s]|
      ensures Seated(At(g, Off), g.lists[s][i]) && g.arena[g.lists[s][i]].team == s &&
        multiset(g.lists[s])[g.lists[s][i]] == 1 && (g.lists[s][i] != id ==> Generable(g.arena[g.lists[s][i]], true))
    {
      var q := g.lists[s][i];
      assert q in g.lists[s];
      assert q in f.lists[s];
      var k :| 0 <= k < |f.lists[s]| && f.lists[s][k] == q;
    }
  }

  /** Changing the mover's type keeps the lists in order: only `at` and `team` are read, and the mover's own generability is not required. */
  lemma OrderlyRekind(g: Fields, id: nat, k: char)
    requires Orderly(g, id)
    ensures Orderly(g.(arena := g.arena[id := g.arena[id].(kind := k)]), id)
  {
    var h := g.(arena := g.arena[id := g.arena[id].(kind := k)]);
    forall s, i | 0 <= s < 2 && 0 <= i < |h.lists[s]|
      ensures h.lists[s][i] != id ==> h.arena[h.lists[s][i]] == g.arena[g.lists[s][i]]
    {
    }
  }

  /** The capture takes the target's piece, of `opp`, out of its list: afterwards no listed piece but the mover stands on `t`. */
  lemma CaptureOrderly(f: Fields, id: nat, t: Sq, opp: int)
    requires Orderly(f, id) && InBoard(t.x, t.y) && 0 <= opp < 2
    requires f.board[t.x][t.y].Some? ==> f.arena[f.board[t.x][t.y].value].team == opp
    ensures var f2 := Capture(f, t, opp);
      Orderly(f2, id) && Vacated(f2, id, t) && f2.board == f.board && f2.arena == f.arena
  {
    var f2 := Capture(f, t, opp);
    CaptureSane(f, t, opp);
    var v := f.board[t.x][t.y];
    var w := if v.Some? then v.value else 0;
    WithoutOnce(f.lists[opp], w);
    forall s, i | 0 <= s < 2 && 0 <= i < |f2.lists[s]|
      ensures Seated(At(f2, Off), f2.lists[s][i]) && f2.arena[f2.lists[s][i]].team == s &&
        multiset(f2.lists[s])[f2.lists[s][i]] == 1 &&
        (f2.lists[s][i] != id ==> Generable(f2.arena[f2.lists[s][i]], true)) &&
        f2.arena[f2.lists[s][i]].at != t
    {
      var q := f2.lists[s][i];
      assert q in f2.lists[s];
      assert q in f.lists[s];
      var k :| 0 <= k < |f.lists[s]| && f.lists[s][k] == q;
    }
  }

  /** The castling rook moves from its corner to the empty landing tile beside the king's target, so every listed piece stays seated. */
  lemma CastleOrderly(f: Fields, id: nat, t: Sq)
    requires Orderly(f, id) && Vacated(f, id, t) && InBoard(t.x, t.y)
    requires Castling(f, id, t) ==> f.board[Corner(t)][t.y].Some? && (t.x == 2 || t.x == 6) && f.board[Landing(t)][t.y] == None
    ensures var f3 := CastleRook(f, id, t); Orderly(f3, id) && Vacated(f3, id, t) && f3.lists == f.lists
  {
    var f3 := CastleRook(f, id, t);
    if Castling(f, id, t) {
      var r := f.board[Corner(t)][t.y].value;
      forall s, i | 0 <= s < 2 && 0 <= i < |f3.lists[s]|
        ensures Seated(At(f3, Off), f3.lists[s][i]) && f3.arena[f3.lists[s][i]].team == s &&
          (f3.lists[s][i] != id ==> Generable(f3.arena[f3.lists[s][i]], true) && f3.arena[f3.lists[s][i]].at != t)
      {
      }
    }
  }

  /** The mover leaves its tile for the emptied target and is marked as moved: the fields are settled again. */
  lemma RelocateSettled(f: Fields, id: nat, t: Sq)
    requires Orderly(f, id) && Vacated(f, id, t) && InBoard(t.x, t.y)
    ensures Settled(Relocate(f, id, t))
  {
    var f4 := Relocate(f, id, t);
    RelocateSane(f, id, t);
    forall s, i | 0 <= s < 2 && 0 <= i < |f4.lists[s]|
      ensures Seated(At(f4, Off), f4.lists[s][i]) && Generable(f4.arena[f4.lists[s][i]], true)
    {
    }
  }

  /**
   * A move that takes only pieces of `opp` and castles onto an empty
   * landing tile keeps the fields settled, so that afterwards
   * GetMoves(side, true) can run for both sides, as `Update` needs.
   */
  lemma PlayReady(f: Fields, id: nat, t: Sq, opp: int, promo: char, ep: Passant)
    requires Settled(f) && Playable(f, id, t, opp, promo) && Seated(At(f, Off), id) && TakesOnly(f, id, t, opp, promo)
    ensures Settled(Play(f, id, t, opp, promo, ep))
    ensures var g := Play(f, id, t, opp, promo, ep); SideReady(At(g, Off), 0, true) && SideReady(At(g, Off), 1, true)
  {
    var f1 := PawnFirst(f, id, t, opp, promo);
    PawnFirstOrderly(f, id, t, opp, promo);
    var f2 := Capture(f1, t, opp);
    CaptureOrderly(f1, id, t, opp);
    CastleOrderly(f2, id, t);
    RelocateSettled(CastleRook(f2, id, t), id, t);
  }

  /** A move string MovePiece can index: two squares, each a file letter and a rank digit. */
  predicate Legible(move: string) {
    |move| >= 4 && IsFile(move[0]) && IsRank(move[1]) && IsFile(move[2]) && IsRank(move[3])
  }

  /** The promotion letter: the upper-cased fifth character, `P` when there is none. */
  function Promotion(move: string): char {
    if |move| > 4 then Upper(move[4]) else 'P'
  }

  /** MovePiece's acceptance test: the string is the text of one of the moves the piece lists in legal mode. */
  ghost predicate Accepts(pos: Position, id: nat, move: string)
    requires Legible(move) && Ready(pos, id, true)
  {
    Read(move) in Listed(pos, id, true) && Text(Read(move)) == move
  }

  /** Every move a piece lists has a text. */
  lemma ListedOnBoard(pos: Position, id: nat, legal: bool, m: Move)
    requires Ready(pos, id, legal) && m in Listed(pos, id, legal)
    ensures OnBoard(m) && m.from == pos.arena[id].at
  {
    var t :| t in Targets(pos, id, legal) && m == Move(pos.arena[id].at, t, Promo(pos.arena[id], t));
    TargetsOnBoard(pos, id, legal, t);
  }

  /** Searching the list of texts for the string is the acceptance test. */
  lemma AcceptsIff(pos: Position, id: nat, move: string, moves: seq<Move>)
    requires Legible(move) && Ready(pos, id, true) && (set m | m in moves) == Listed(pos, id, true)
    requires forall i | 0 <= i < |moves| :: OnBoard(moves[i])
    ensures (exists i | 0 <= i < |moves| :: Text(moves[i]) == move) <==> Accepts(pos, id, move)
  {
    if i :| 0 <= i < |moves| && Text(moves[i]) == move {
      TextRead(moves[i]);
      assert moves[i] in (set m | m in moves);
    }
    if Accepts(pos, id, move) {
      assert Read(move) in (set m | m in moves);
      var i :| 0 <= i < |moves| && moves[i] == Read(move);
      assert Text(moves[i]) == move;
    }
  }

  /** An accepted pawn move to an empty tile one file aside lands on the rank ahead, so the tile behind it is on the board. */
  lemma AcceptedPassing(pos: Position, id: nat, move: string)
    requires Legible(move) && Ready(pos, id, true) && Accepts(pos, id, move)
    ensures var p, t := pos.arena[id], SquareAt(move, 2);
      p.kind == 'P' && Abs(t.x - p.at.x) == 1 ==> 0 <= t.y + Back(p.team) < 8
  {
    var p, target := pos.arena[id], SquareAt(move, 2);
    var t :| t in Targets(pos, id, true) && Read(move) == Move(p.at, t, Promo(p, t));
    assert t == target;
    if p.kind == 'P' && Abs(target.x - p.at.x) == 1 {
      PawnDiagonals(pos, id, t);
    }
  }

  /** List.Contains on the texts of a move list. */
  method Contains(moves: seq<Move>, move: string) returns (found: bool)
    requires forall i | 0 <= i < |moves| :: OnBoard(moves[i])
    ensures found <==> exists i | 0 <= i < |moves| :: Text(moves[i]) == move
  {
    for i := 0 to |moves|
      invariant forall j | 0 <= j < i :: Text(moves[j]) != move
    {
      if Text(moves[i]) == move {
        return true;
      }
    }
    return false;
  }

  /** The capture loop: walk the list and remove the first entry equal to `v`. */
  method RemoveFirst(l: seq<nat>, v: nat) returns (r: seq<nat>)
    ensures r == Without(l, v)
  {
    var i := 0;
    while i < |l|
      invariant 0 <= i <= |l| && v !in l[..i]
    {
      if l[i] == v {
        WithoutSplit(l, v, i);
        return l[..i] + l[i + 1..];
      }
      assert l[..i + 1] == l[..i] + [l[i]];
      i := i + 1;
    }
    assert l[..i] == l;
    WithoutAbsent(l, v);
    return l;
  }

  /** The fields on which a move can be played, as a set, so that callers need not unfold `Playable`. */
  ghost function PlayableFor(id: nat, t: Sq, opp: int, promo: char): iset<Fields> {
    iset f | Playable(f, id, t, opp, promo)
  }

  /** A list is empty exactly when the set of its moves is. */
  lemma NoneListed(moves: seq<Move>)
    ensures |moves| == 0 <==> (set m | m in moves) == {}
  {
    var listed := set m | m in moves;
    if |moves| > 0 {
      assert moves[0] in listed;
    } else {
      assert moves == [];
    }
  }

  /** Safe, spelled out for a trial position and skip computed beforehand. */
  lemma SafeTrial(pos: Position, id: nat, t: Sq, trial: Position, skip: Option<Sq>)
    requires Sane(pos) && Placed(pos, id) && InBoard(t.x, t.y)
    requires trial == Trial(pos, id, t) && skip == Skip(trial, pos.board[t.x][t.y])
    ensures Safe(pos, id, t) == !InCheck(trial, pos.arena[id].team, skip)
  {
  }

  // ---------------------------------------------------------------------
  // LoadFEN
  // ---------------------------------------------------------------------

  /** What LoadFEN has built while it walks the placement field: tiles, the arena, the two team lists and the square cursor. */
  datatype Layout = Layout(board: seq<seq<Option<nat>>>, arena: seq<Piece>, lists: seq<seq<nat>>, cursor: nat)

  /** A digit from 1 to 8 moves the cursor that many squares. */
  predicate IsSkip(c: char) {
    1 <= c as int - '0' as int <= 8
  }

  /** Upper-case letters are team 0, every other character team 1. */
  function TeamOf(c: char): int {
    if IsUpper(c) then 0 else 1
  }

  /** The `moved` flag of a piece read at cursor `i`: false for a king and for a pawn on its team's second rank, true otherwise. */
  predicate MovedAt(c: char, i: nat) {
    Upper(c) != 'K' && (Upper(c) != 'P' || 7 - i / 8 != (if TeamOf(c) == 0 then 1 else 6))
  }

  /** The tiles as the constructor leaves them: all empty. */
  function EmptyBoard(): seq<seq<Option<nat>>> {
    var file := [None, None, None, None, None, None, None, None];
    [file, file, file, file, file, file, file, file]
  }

  lemma EmptyBoardEmpty()
    ensures IsGrid(EmptyBoard()) && forall x, y | InBoard(x, y) :: EmptyBoard()[x][y] == None
  {
  }

  /** The cursor after reading `cs`: a skip digit adds its value, any other character one square. */
  function Cursor(cs: string): nat {
    if |cs| == 0 then 0
    else Cursor(cs[..|cs| - 1]) + (if IsSkip(cs[|cs| - 1]) then cs[|cs| - 1] as int - '0' as int else 1)
  }

  /** Every piece character of `cs` is read while the cursor is still on the board. */
  predicate Fits(cs: string) {
    |cs| == 0 || (Fits(cs[..|cs| - 1]) && (IsSkip(cs[|cs| - 1]) || Cursor(cs[..|cs| - 1]) < 64))
  }

  /**
   * One character of the placement field: a skip digit moves the cursor;
   * any other character is a new piece of the upper-cased type on the
   * cursor's tile, added at the end of its team's list, and the cursor
   * moves one square.
   */
  function PlaceChar(l: Layout, c: char): (r: Layout)
    requires IsGrid(l.board) && |l.lists| == 2 && (!IsSkip(c) ==> l.cursor < 64)
    ensures IsGrid(r.board) && |r.lists| == 2
  {
    if IsSkip(c) then l.(cursor := l.cursor + (c as int - '0' as int))
    else
      var t, sq, id := TeamOf(c), SquareOf(l.cursor), |l.arena|;
      CursorSquares(l.cursor, sq);
      Layout(SetCell(l.board, sq.x, sq.y, Some(id)), l.arena + [Piece(Upper(c), t, sq, MovedAt(c, l.cursor))],
             l.lists[t := l.lists[t] + [id]], l.cursor + 1)
  }

  /** The layout after reading `cs` from empty tiles and lists. */
  function Places(cs: string): (r: Layout)
    requires Fits(cs)
    ensures IsGrid(r.board) && |r.lists| == 2 && r.cursor == Cursor(cs)
  {
    if |cs| == 0 then EmptyBoardEmpty(); Layout(EmptyBoard(), [], [[], []], 0)
    else PlaceChar(Places(cs[..|cs| - 1]), cs[|cs| - 1])
  }

  /** A prefix of a placement field that fits fits too. */
  lemma {:induction false} FitsPrefix(cs: string, p: string)
    requires Fits(cs) && p <= cs
    ensures Fits(p)
  {
    if |p| < |cs| {
      assert p <= cs[..|cs| - 1];
      FitsPrefix(cs[..|cs| - 1], p);
    } else {
      assert p == cs;
    }
  }

  /**
   * The layout invariant: each piece stands on a tile of the board that
   * the cursor has passed and that points back at it, and plays for team 0
   * or 1; each tile points at a piece standing on it; each list holds, in
   * increasing order, pieces of its own team, and every piece is in its
   * team's list.
   */
  ghost predicate Consistent(l: Layout) {
    IsGrid(l.board) && |l.lists| == 2 &&
    (forall j | 0 <= j < |l.arena| ::
       InBoard(l.arena[j].at.x, l.arena[j].at.y) && IndexOf(l.arena[j].at) < l.cursor &&
       l.board[l.arena[j].at.x][l.arena[j].at.y] == Some(j) && 0 <= l.arena[j].team < 2 && j in l.lists[l.arena[j].team]) &&
    (forall x, y | InBoard(x, y) && l.board[x][y].Some? ::
       l.board[x][y].value < |l.arena| && l.arena[l.board[x][y].value].at == Sq(x, y)) &&
    (forall s, i | 0 <= s < 2 && 0 <= i < |l.lists[s]| :: l.lists[s][i] < |l.arena| && l.arena[l.lists[s][i]].team == s) &&
    (forall s, i, k | 0 <= s < 2 && 0 <= i < k < |l.lists[s]| :: l.lists[s][i] < l.lists[s][k])
  }

  /** An unmoved pawn stands on its team's second rank, where its double push stays on the board. */
  ghost predicate HomePawns(arena: seq<Piece>) {
    forall j | 0 <= j < |arena| && arena[j].kind == 'P' && !arena[j].moved ::
      arena[j].at.y == (if arena[j].team == 0 then 1 else 6)
  }

  /** Reading one character keeps the layout invariant and the home rank of unmoved pawns. */
  lemma PlaceCharConsistent(l: Layout, c: char)
    requires Consistent(l) && HomePawns(l.arena) && (!IsSkip(c) ==> l.cursor < 64)
    ensures Consistent(PlaceChar(l, c)) && HomePawns(PlaceChar(l, c).arena)
  {
    if !IsSkip(c) {
      PlaceCharPieces(l, c);
      PlaceCharCells(l, c);
      PlaceCharLists(l, c);
    }
  }

  /** A new piece stands on the cursor's empty tile and joins the end of its team's list; the others stay where they were. */
  lemma PlaceCharPieces(l: Layout, c: char)
    requires Consistent(l) && !IsSkip(c) && l.cursor < 64
    ensures var r := PlaceChar(l, c);
      forall j | 0 <= j < |r.arena| ::
        InBoard(r.arena[j].at.x, r.arena[j].at.y) && IndexOf(r.arena[j].at) < r.cursor &&
        r.board[r.arena[j].at.x][r.arena[j].at.y] == Some(j) && 0 <= r.arena[j].team < 2 && j in r.lists[r.arena[j].team]
  {
    var sq, id, t := SquareOf(l.cursor), |l.arena|, TeamOf(c);
    CursorSquares(l.cursor, sq);
    assert l.board[sq.x][sq.y] == None;
    var r := PlaceChar(l, c);
    forall j | 0 <= j < |r.arena|
      ensures r.board[r.arena[j].at.x][r.arena[j].at.y] == Some(j) && j in r.lists[r.arena[j].team]
    {
      if j < id {
        assert l.lists[l.arena[j].team] <= r.lists[l.arena[j].team];
      } else {
        assert r.lists[t] == l.lists[t] + [id];
      }
    }
  }

  /** Every occupied tile still names a piece standing on it. */
  lemma PlaceCharCells(l: Layout, c: char)
    requires Consistent(l) && !IsSkip(c) && l.cursor < 64
    ensures var r := PlaceChar(l, c);
      forall x, y | InBoard(x, y) && r.board[x][y].Some? ::
        r.board[x][y].value < |r.arena| && r.arena[r.board[x][y].value].at == Sq(x, y)
  {
    var sq := SquareOf(l.cursor);
    CursorSquares(l.cursor, sq);
  }

  /** Each list still holds, in increasing order, pieces of its own team. */
  lemma PlaceCharLists(l: Layout, c: char)
    requires Consistent(l) && !IsSkip(c) && l.cursor < 64
    ensures var r := PlaceChar(l, c);
      (forall s, i | 0 <= s < 2 && 0 <= i < |r.lists[s]| :: r.lists[s][i] < |r.arena| && r.arena[r.lists[s][i]].team == s) &&
      (forall s, i, k | 0 <= s < 2 && 0 <= i < k < |r.lists[s]| :: r.lists[s][i] < r.lists[s][k])
  {
    var r, t := PlaceChar(l, c), TeamOf(c);
    forall s, i, k | 0 <= s < 2 && 0 <= i < k < |r.lists[s]|
      ensures r.lists[s][i] < r.lists[s][k]
    {
      if s == t && k == |r.lists[s]| - 1 {
        assert r.lists[s][i] == l.lists[s][i];
      }
    }
  }

  /** Every layout LoadFEN builds keeps the invariant. */
  lemma {:induction false} PlacesConsistent(cs: string)
    requires Fits(cs)
    ensures Consistent(Places(cs)) && HomePawns(Places(cs).arena)
  {
    if |cs| == 0 {
      EmptyBoardEmpty();
    } else {
      PlacesConsistent(cs[..|cs| - 1]);
      PlaceCharConsistent(Places(cs[..|cs| - 1]), cs[|cs| - 1]);
    }
  }

  /** The piece a character makes: its upper-cased type, its team, the cursor's square and flag; later characters leave it alone. */
  lemma {:induction false} PlacesPiece(cs: string, k: nat)
    requires Fits(cs) && k < |cs| && !IsSkip(cs[k]) && Fits(cs[..k])
    ensures var id := |Places(cs[..k]).arena|;
      id < |Places(cs).arena| &&
      Places(cs).arena[id] == Piece(Upper(cs[k]), TeamOf(cs[k]), SquareOf(Cursor(cs[..k])), MovedAt(cs[k], Cursor(cs[..k])))
  {
    if k < |cs| - 1 {
      var init := cs[..|cs| - 1];
      assert init[..k] == cs[..k] && init[k] == cs[k];
      PlacesPiece(init, k);
    } else {
      assert cs[..k] == cs[..|cs| - 1];
    }
  }

  /** How LoadFEN reads the castling field: each character names a corner, and a rook found there becomes unmoved. */
  function RightsCorner(c: char): Sq {
    Sq(if Upper(c) == 'K' then 7 else 0, if IsUpper(c) then 0 else 7)
  }

  /** Every occupied tile names a piece of the arena. */
  ghost predicate Indexed(board: seq<seq<Option<nat>>>, arena: seq<Piece>) {
    IsGrid(board) && forall x, y | InBoard(x, y) && board[x][y].Some? :: board[x][y].value < |arena|
  }

  lemma PlacesIndexed(cs: string)
    requires Fits(cs)
    ensures Indexed(Places(cs).board, Places(cs).arena)
  {
    PlacesConsistent(cs);
  }

  function Rights(arena: seq<Piece>, board: seq<seq<Option<nat>>>, cs: string): (r: seq<Piece>)
    requires Indexed(board, arena)
    ensures |r| == |arena|
  {
    if |cs| == 0 then arena
    else
      var a, q := Rights(arena, board, cs[..|cs| - 1]), RightsCorner(cs[|cs| - 1]);
      var p := board[q.x][q.y];
      if p.Some? && a[p.value].kind == 'R' then a[p.value := a[p.value].(moved := false)] else a
  }

  /** After the castling field a piece is unmoved exactly when it was, or it is a rook on a corner the field names; nothing else changes. */
  lemma {:induction false} RightsIff(arena: seq<Piece>, board: seq<seq<Option<nat>>>, cs: string, j: nat)
    requires Indexed(board, arena)
    requires j < |arena|
    ensures Rights(arena, board, cs)[j] ==
      arena[j].(moved := arena[j].moved &&
                         !(arena[j].kind == 'R' && exists k | 0 <= k < |cs| :: board[RightsCorner(cs[k]).x][RightsCorner(cs[k]).y] == Some(j)))
  {
    if |cs| > 0 {
      var init := cs[..|cs| - 1];
      RightsIff(arena, board, init, j);
      var q := RightsCorner(cs[|cs| - 1]);
      var named := exists k | 0 <= k < |cs| :: board[RightsCorner(cs[k]).x][RightsCorner(cs[k]).y] == Some(j);
      var namedBefore := exists k | 0 <= k < |init| :: board[RightsCorner(init[k]).x][RightsCorner(init[k]).y] == Some(j);
      if namedBefore {
        var k :| 0 <= k < |init| && board[RightsCorner(init[k]).x][RightsCorner(init[k]).y] == Some(j);
        assert cs[k] == init[k];
      }
      if named && board[q.x][q.y] != Some(j) {
        var k :| 0 <= k < |cs| && board[RightsCorner(cs[k]).x][RightsCorner(cs[k]).y] == Some(j);
        assert k < |init| && init[k] == cs[k];
      }
    }
  }

  /** The castling field keeps unmoved pawns on their home rank: it only touches rooks. */
  lemma {:induction false} RightsHome(arena: seq<Piece>, board: seq<seq<Option<nat>>>, cs: string)
    requires Indexed(board, arena)
    requires HomePawns(arena)
    ensures HomePawns(Rights(arena, board, cs))
    ensures forall j | 0 <= j < |arena| :: Rights(arena, board, cs)[j].(moved := true) == arena[j].(moved := true)
  {
    if |cs| > 0 {
      RightsHome(arena, board, cs[..|cs| - 1]);
    }
  }

  /** What LoadFEN demands of its string: six space-separated fields, a placement that stays on the board, two numbers `int.Parse` reads, and two characters in the en-passant field unless it is `-`. */
  predicate Loadable(fen: string) {
    var c := Split(fen, ' ');
    |c| >= 6 && Fits(Concat(Split(c[0], '/'))) && Parses(c[4]) && Parses(c[5]) && (c[3] != "-" ==> |c[3]| >= 2)
  }

  /** The turn counter: twice the full moves played, plus one when black is to move, in 32-bit arithmetic. */
  function TurnOf(fullMove: string, side: string): int
    requires Parses(fullMove)
  {
    Wrap32((Value(fullMove) - 1) * 2 + (if side == "w" then 0 else 1))
  }

  /** The en-passant text: the file letter repeated as many times as the rank digit plus one for white to move, minus one for black. */
  function PassingText(square: string, side: string): string
    requires |square| >= 2
  {
    Repeat(square[0], Char16(square[1] as int - '0' as int + (if side == "w" then 1 else -1)))
  }

  /** The move list LoadFEN leaves: empty without an en-passant square, else the en-passant text, after an empty entry when black is to move. */
  function PassingMoves(square: string, side: string, turn: int): seq<string>
    requires square != "-" ==> |square| >= 2
  {
    if square == "-" then [] else (if CsMod(turn, 2) == 1 then [""] else []) + [PassingText(square, side)]
  }

  /** The state LoadFEN leaves: the fields MovePiece writes, and the turn. */
  datatype Start = Start(fields: Fields, turn: int)

  function Loaded(fen: string): (r: Start)
    requires Loadable(fen)
  {
    var c := Split(fen, ' ');
    var l := Places(Concat(Split(c[0], '/')));
    PlacesIndexed(Concat(Split(c[0], '/')));
    var turn := TurnOf(c[5], c[1]);
    var moves := PassingMoves(c[3], c[1], turn);
    var arena := if c[2] == "-" then l.arena else Rights(l.arena, l.board, c[2]);
    Start(Fields(l.board, arena, l.lists, Value(c[4]), moves, c[3] != "-"), turn)
  }

  /** Walking the rows one by one: the rows read so far followed by the next one are a prefix of the whole field. */
  lemma ConcatPrefix(rows: seq<string>, r: nat)
    requires r < |rows|
    ensures Concat(rows[..r + 1]) == Concat(rows[..r]) + rows[r]
    ensures Concat(rows[..r + 1]) <= Concat(rows)
  {
    assert rows[..r + 1][..r] == rows[..r];
    ConcatPrefixes(rows, r + 1);
  }

  lemma {:induction false} ConcatPrefixes(rows: seq<string>, j: nat)
    requires j <= |rows|
    ensures Concat(rows[..j]) <= Concat(rows)
  {
    if j < |rows| {
      var init := rows[..|rows| - 1];
      assert init[..j] == rows[..j];
      ConcatPrefixes(init, j);
    } else {
      assert rows[..j] == rows;
    }
  }

  /** A strictly increasing list holds each of its entries once. */
  lemma {:induction false} IncreasingOnce(l: seq<nat>, v: nat)
    requires forall i, k | 0 <= i < k < |l| :: l[i] < l[k]
    ensures multiset(l)[v] <= 1
  {
    if |l| > 0 {
      var init := l[..|l| - 1];
      IncreasingOnce(init, v);
      assert l == init + [l[|l| - 1]];
    }
  }

  /**
   * A loaded position is sane, every listed piece is seated on its tile,
   * each list holds each of its pieces once, and a side can list its
   * legal moves under any readable en-passant state, and under an
   * unreadable one when it has no pawn.
   */
  lemma LoadedReady(fen: string, ep: Passant)
    requires Loadable(fen)
    ensures var f := Loaded(fen).fields; var pos := At(f, ep);
      Sane(pos) &&
      (forall s, i | 0 <= s < 2 && 0 <= i < |f.lists[s]| ::
         Seated(pos, f.lists[s][i]) && multiset(f.lists[s])[f.lists[s][i]] == 1) &&
      (forall s | 0 <= s < 2 && (ep != Unreadable || Pawnless(pos, s)) :: SideReady(pos, s, true))
  {
    var c := Split(fen, ' ');
    var cs := Concat(Split(c[0], '/'));
    PlacesConsistent(cs);
    var l := Places(cs);
    if c[2] != "-" {
      RightsHome(l.arena, l.board, c[2]);
    }
    LayoutReady(l, Loaded(fen).fields.arena, ep);
  }

  /** A consistent layout whose arena is only re-flagged, with unmoved pawns at home, is a position ready for generation. */
  lemma LayoutReady(l: Layout, arena: seq<Piece>, ep: Passant)
    requires Consistent(l) && HomePawns(arena) && |arena| == |l.arena|
    requires forall j | 0 <= j < |arena| :: arena[j].(moved := true) == l.arena[j].(moved := true)
    ensures var pos := Position(l.board, arena, l.lists, ep);
      Sane(pos) &&
      (forall s, i | 0 <= s < 2 && 0 <= i < |l.lists[s]| ::
         Seated(pos, l.lists[s][i]) && multiset(l.lists[s])[l.lists[s][i]] == 1) &&
      (forall s | 0 <= s < 2 && (ep != Unreadable || Pawnless(pos, s)) :: SideReady(pos, s, true))
  {
    LayoutSeated(l, arena, ep);
    forall s, i | 0 <= s < 2 && 0 <= i < |l.lists[s]|
      ensures multiset(l.lists[s])[l.lists[s][i]] == 1
    {
      IncreasingOnce(l.lists[s], l.lists[s][i]);
    }
  }

  /** A loaded position is settled: the board and the lists agree, and every listed piece can generate legal moves. */
  lemma LoadedSettled(fen: string)
    requires Loadable(fen)
    ensures Settled(Loaded(fen).fields)
  {
    var c := Split(fen, ' ');
    var cs := Concat(Split(c[0], '/'));
    PlacesConsistent(cs);
    var l := Places(cs);
    if c[2] != "-" {
      RightsHome(l.arena, l.board, c[2]);
    }
    LayoutSettled(l, Loaded(fen).fields);
  }

  /** Fields holding a consistent layout whose arena is only re-flagged, with unmoved pawns at home, are settled. */
  lemma LayoutSettled(l: Layout, f: Fields)
    requires Consistent(l) && HomePawns(f.arena) && |f.arena| == |l.arena| && f.board == l.board && f.lists == l.lists
    requires forall j | 0 <= j < |f.arena| :: f.arena[j].(moved := true) == l.arena[j].(moved := true)
    ensures Settled(f)
  {
    LayoutReady(l, f.arena, Off);
    forall j | 0 <= j < |f.arena|
      ensures f.arena[j].at == l.arena[j].at && f.arena[j].team == l.arena[j].team
    {
      assert f.arena[j].(moved := true).at == f.arena[j].at;
      assert l.arena[j].(moved := true).team == l.arena[j].team;
    }
  }

  /** Re-flagging keeps every piece on the tile that names it. */
  lemma LayoutSeated(l: Layout, arena: seq<Piece>, ep: Passant)
    requires Consistent(l) && |arena| == |l.arena|
    requires forall j | 0 <= j < |arena| :: arena[j].(moved := true) == l.arena[j].(moved := true)
    ensures var pos := Position(l.board, arena, l.lists, ep);
      Sane(pos) && forall s, i | 0 <= s < 2 && 0 <= i < |l.lists[s]| :: Seated(pos, l.lists[s][i])
  {
    forall j | 0 <= j < |arena|
      ensures arena[j].at == l.arena[j].at && arena[j].team == l.arena[j].team
    {
      assert arena[j].(moved := true).at == arena[j].at;
      assert l.arena[j].(moved := true).team == l.arena[j].team;
    }
  }

  /** The turn counter gives back the side to move and the full-move number, and the half-move counter is the fifth field. */
  lemma LoadedTurn(fen: string)
    requires Loadable(fen) && 1 <= Value(Split(fen, ' ')[5]) <= 0x4000_0000
    ensures var c, s := Split(fen, ' '), Loaded(fen);
      CsMod(s.turn, 2) == (if c[1] == "w" then 0 else 1) && s.turn / 2 + 1 == Value(c[5]) &&
      s.fields.halfMoves == Value(c[4])
  {
  }

  /**
   * Without an en-passant field the flag is off and no text is recorded;
   * with a target on ranks 2 to 8 the flag is on and the last text starts
   * with the target's file letter, which the pawn's en-passant test reads.
   */
  lemma LoadedPassing(fen: string)
    requires Loadable(fen)
    ensures var c, f := Split(fen, ' '), Loaded(fen).fields;
      (c[3] == "-" ==> !f.enPassant && f.moveList == []) &&
      (c[3] != "-" && '2' <= c[3][1] <= '8' ==>
         f.enPassant && |f.moveList| > 0 && |f.moveList[|f.moveList| - 1]| > 0 && f.moveList[|f.moveList| - 1][0] == c[3][0])
  {
  }

  class BoardController {
    var turn: int
    var halfMoveCounter: int
    var board: seq<seq<Option<nat>>>
    var arena: seq<Piece>
    var pieces: seq<seq<nat>>
    var moveList: seq<string>
    var enPassant: bool
    var checkMate: bool
    var gameOver: bool

    /** What the pawn's en-passant test would read now. */
    function Passing(): Passant
      reads `enPassant, `moveList
    {
      if !enPassant then Off
      else if |moveList| == 0 || |moveList[|moveList| - 1]| == 0 then Unreadable
      else File(moveList[|moveList| - 1][0] as int - 'a' as int)
    }

    function Pos(): Position
      reads `board, `arena, `pieces, `enPassant, `moveList
    {
      Position(board, arena, pieces, Passing())
    }

    /** BoardController(fen): every tile empty, both lists empty, then LoadFEN. */
    constructor(fen: string)
      requires Loadable(fen)
      ensures Snapshot() == Loaded(fen).fields && turn == Loaded(fen).turn && !checkMate && !gameOver
    {
      board, arena, pieces := EmptyBoard(), [], [[], []];
      moveList, enPassant, checkMate, gameOver := [], false, false, false;
      turn, halfMoveCounter := 0, 0;
      new;
      LoadFEN(fen);
    }

    /**
     * LoadFEN: the placement field row by row, then the turn from the
     * full-move number and the side to move, the half-move counter, the
     * en-passant text, and the castling rights.
     */
    method LoadFEN(fen: string)
      requires Loadable(fen)
      requires board == EmptyBoard() && arena == [] && pieces == [[], []] && moveList == [] && !enPassant
      modifies `board, `arena, `pieces, `turn, `halfMoveCounter, `moveList, `enPassant
      ensures Snapshot() == Loaded(fen).fields && turn == Loaded(fen).turn
    {
      var fenComponents := Split(fen, ' ');
      var rows := Split(fenComponents[0], '/');
      var cursor := PlaceRows(rows);
      PlacesIndexed(Concat(rows));
      ghost var l := Places(Concat(rows));
      turn := Wrap32((Value(fenComponents[5]) - 1) * 2 + (if fenComponents[1] == "w" then 0 else 1));
      halfMoveCounter := Value(fenComponents[4]);
      ReadPassing(fenComponents[3], fenComponents[1]);
      if fenComponents[2] != "-" {
        GrantRights(fenComponents[2]);
      }
      assert arena == if fenComponents[2] == "-" then l.arena else Rights(l.arena, l.board, fenComponents[2]);
      ghost var st := Loaded(fen);
      assert st.turn == turn;
      assert st.fields.board == board;
      assert st.fields.lists == pieces;
      assert st.fields.arena == arena;
      assert st.fields.halfMoves == halfMoveCounter;
      assert st.fields.moveList == moveList;
      assert st.fields.enPassant == enPassant;
    }

    /** The en-passant part of LoadFEN: the flag, and the text MovePiece reads back as the last move. */
    method ReadPassing(square: string, side: string)
      requires moveList == [] && !enPassant && (square != "-" ==> |square| >= 2)
      modifies `moveList, `enPassant
      ensures enPassant == (square != "-") && moveList == PassingMoves(square, side, turn)
    {
      if square != "-" {
        enPassant := true;
        if CsMod(turn, 2) == 1 {
          moveList := moveList + [""];
        }
        moveList := moveList + [Repeat(square[0], Char16(square[1] as int - '0' as int + (if side == "w" then 1 else -1)))];
      }
    }

    /** The placement loops of LoadFEN: the rows in order, one cursor across all rows. */
    method PlaceRows(rows: seq<string>) returns (i: nat)
      requires board == EmptyBoard() && arena == [] && pieces == [[], []] && Fits(Concat(rows))
      modifies `board, `arena, `pieces
      ensures Layout(board, arena, pieces, i) == Places(Concat(rows))
    {
      i := 0;
      for r := 0 to |rows|
        invariant Fits(Concat(rows[..r])) && Layout(board, arena, pieces, i) == Places(Concat(rows[..r]))
      {
        ConcatPrefix(rows, r);
        FitsPrefix(Concat(rows), Concat(rows[..r + 1]));
        i := PlaceRow(rows[r], i, Concat(rows[..r]));
      }
      assert rows[..|rows|] == rows;
    }

    /** The characters of one row in order, the cursor carried over from the rows before. */
    method PlaceRow(row: string, i: nat, ghost done: string) returns (i': nat)
      requires Fits(done) && Fits(done + row) && Layout(board, arena, pieces, i) == Places(done)
      modifies `board, `arena, `pieces
      ensures Layout(board, arena, pieces, i') == Places(done + row)
    {
      i' := i;
      assert done + row[..0] == done;
      for k := 0 to |row|
        invariant Fits(done + row[..k]) && Layout(board, arena, pieces, i') == Places(done + row[..k])
      {
        ghost var next := done + row[..k + 1];
        assert next <= done + row;
        FitsPrefix(done + row, next);
        assert next[..|next| - 1] == done + row[..k] && next[|next| - 1] == row[k];
        i' := ReadChar(row[k], i', Places(done + row[..k]));
      }
      assert row[..|row|] == row;
    }

    /** The body of the character loop: a skip digit moves the cursor (the `continue`), any other character makes a piece. */
    method ReadChar(c: char, i: nat, ghost l: Layout) returns (i': nat)
      requires Layout(board, arena, pieces, i) == l && IsGrid(board) && |pieces| == 2
      requires !IsSkip(c) ==> i < 64
      modifies `board, `arena, `pieces
      ensures Layout(board, arena, pieces, i') == PlaceChar(l, c)
    {
      if 1 <= c as int - '0' as int <= 8 {
        return i + (c as int - '0' as int);
      }
      var t := if IsUpper(c) then 0 else 1;
      var m := Upper(c) != 'K' && (Upper(c) != 'P' || 7 - i / 8 != (if t == 0 then 1 else 6));
      var sq := Sq(i % 8, 7 - i / 8);
      arena := arena + [Piece(Upper(c), t, sq, m)];
      pieces := pieces[t := pieces[t] + [|arena| - 1]];
      board := SetCell(board, sq.x, sq.y, Some(|arena| - 1));
      i' := i + 1;
    }

    /** The castling loop of LoadFEN: a rook on the corner a character names becomes unmoved. */
    method GrantRights(rights: string)
      requires Indexed(board, arena)
      modifies `arena
      ensures arena == Rights(old(arena), board, rights)
    {
      ghost var a0 := arena;
      for k := 0 to |rights|
        invariant arena == Rights(a0, board, rights[..k])
      {
        var c := rights[k];
        var p := board[if Upper(c) == 'K' then 7 else 0][if IsUpper(c) then 0 else 7];
        assert rights[..k + 1][..k] == rights[..k];
        if p.Some? && arena[p.value].kind == 'R' {
          arena := arena[p.value := arena[p.value].(moved := false)];
        }
      }
      assert rights[..|rights|] == rights;
    }

    /**
     * MoveCheck: move the piece onto `t`, ask CheckCheck about its team
     * with the piece that stood on `t` as the captured one, and put the
     * piece and the tile's old occupant back.
     */
    method MoveCheck(id: nat, t: Sq) returns (ok: bool)
      requires Sane(Pos()) && Placed(Pos(), id) && Seated(Pos(), id) && InBoard(t.x, t.y)
      modifies `board, `arena
      decreases 1, 1
      ensures unchanged(this)
      ensures ok == Safe(Pos(), id, t)
    {
      ghost var pos := Pos();
      var p, originalPiece := PlaceTrial(id, t);
      ghost var trial := Pos();
      SafeTrial(pos, id, t, trial, Skip(trial, originalPiece));
      var r := CheckCheck(p.team, originalPiece);
      assert r == InCheck(trial, p.team, Skip(trial, originalPiece));
      PutBack(id, p, t, originalPiece, pos.board, pos.arena);
      assert Pos() == pos;
      ok := !r;
    }

    /** The start of MoveCheck: the piece leaves its tile and stands on `t`, which now names it. */
    method PlaceTrial(id: nat, t: Sq) returns (p: Piece, originalPiece: Option<nat>)
      requires Sane(Pos()) && Placed(Pos(), id) && InBoard(t.x, t.y)
      modifies `board, `arena
      ensures p == old(arena[id]) && originalPiece == old(board[t.x][t.y])
      ensures board == SetCell(SetCell(old(board), p.at.x, p.at.y, None), t.x, t.y, Some(id))
      ensures arena == old(arena)[id := p.(at := t)]
      ensures Pos() == Trial(old(Pos()), id, t)
      ensures Sane(Pos()) && 0 <= p.team < 2 && (originalPiece.Some? ==> Placed(Pos(), originalPiece.value))
    {
      p := arena[id];
      var originalTile := p.at;
      originalPiece := board[t.x][t.y];
      board := SetCell(board, originalTile.x, originalTile.y, None);
      arena := arena[id := p.(at := t)];
      board := SetCell(board, t.x, t.y, Some(id));
    }

    /** The end of MoveCheck: the piece goes back to its tile and the target tile gets its old occupant back. */
    method PutBack(id: nat, p: Piece, t: Sq, occupant: Option<nat>, ghost b0: seq<seq<Option<nat>>>, ghost a0: seq<Piece>)
      requires IsGrid(b0) && InBoard(p.at.x, p.at.y) && InBoard(t.x, t.y) && id < |a0| && a0[id] == p
      requires b0[p.at.x][p.at.y] == Some(id) && b0[t.x][t.y] == occupant
      requires board == SetCell(SetCell(b0, p.at.x, p.at.y, None), t.x, t.y, Some(id)) && arena == a0[id := p.(at := t)]
      modifies `board, `arena
      ensures board == b0 && arena == a0
    {
      arena := arena[id := p];
      board := SetCell(board, p.at.x, p.at.y, Some(id));
      board := SetCell(board, t.x, t.y, occupant);
      SetCellRestore(b0, p.at, t, None, Some(id));
    }

    /** The opening loop of CheckCheck: the name of the tile of the first king listed for `team`, "" when there is none. */
    method KingTile(team: int) returns (kingTile: string)
      requires Sane(Pos()) && 0 <= team < 2
      ensures kingTile == if KingOf(Pos(), team).Some? then SquareName(KingOf(Pos(), team).value) else ""
    {
      kingTile := "";
      var i := 0;
      while i < |pieces[team]|
        invariant 0 <= i <= |pieces[team]| && kingTile == ""
        invariant KingFrom(Pos(), team, i) == KingOf(Pos(), team)
        decreases |pieces[team]| - i
      {
        if arena[pieces[team][i]].kind == 'K' {
          kingTile := SquareName(arena[pieces[team][i]].at);
          return;
        }
        i := i + 1;
      }
    }

    /**
     * CheckCheck(team, captured): the tile of the first king in the list of
     * `team` ("" when there is none), then the attack-mode moves of the
     * other team, skipping those that start on the captured piece's tile.
     */
    method CheckCheck(team: int, captured: Option<nat>) returns (r: bool)
      requires Sane(Pos()) && 0 <= team < 2 && (captured.Some? ==> Placed(Pos(), captured.value))
      modifies `board, `arena
      decreases 1, 0
      ensures unchanged(this)
      ensures r == InCheck(Pos(), team, Skip(Pos(), captured))
    {
      var moves := GetMoves(Opponent(team), false);
      ghost var pos := Pos();
      ghost var all := AttackMoves(pos, Opponent(team), |pieces[Opponent(team)]|);
      AllMovesPseudo(pos, Opponent(team), |pieces[Opponent(team)]|);
      var kingTile := KingTile(team);
      ghost var king := KingOf(pos, team);
      var skip := if captured.Some? then Some(arena[captured.value].at) else None;
      forall m | m in moves
        ensures OnBoard(m)
      {
        assert m in all;
        AllMovesOnBoard(pos, Opponent(team), false, |pieces[Opponent(team)]|, m);
      }
      r := Attacked(moves, skip, kingTile, king);
      if !r {
        forall m | m in all
          ensures !Hits(m, skip, king)
        {
          assert m in moves;
        }
      }
    }

    /**
     * The closing loop of CheckCheck: some move whose text does not start
     * with the name of `skip` ends with `kingTile`, the name of the king's tile.
     */
    static method Attacked(moves: seq<Move>, skip: Option<Sq>, kingTile: string, ghost king: Option<Sq>) returns (r: bool)
      requires forall m | m in moves :: OnBoard(m)
      requires skip.Some? ==> InBoard(skip.value.x, skip.value.y)
      requires king.Some? ==> InBoard(king.value.x, king.value.y)
      requires kingTile == if king.Some? then SquareName(king.value) else ""
      ensures r <==> exists m | m in moves :: Hits(m, skip, king)
    {
      for j := 0 to |moves|
        invariant forall k | 0 <= k < j :: !Hits(moves[k], skip, king)
      {
        var move := Text(moves[j]);
        if skip.Some? {
          HeadNames(moves[j], skip.value);
        }
        if king.Some? {
          TailNames(moves[j], king.value);
        }
        if !(skip.Some? && move[..2] == SquareName(skip.value)) {
          if move[2..] == kingTile {
            assert Hits(moves[j], skip, king);
            return true;
          }
        }
      }
      return false;
    }

    /** GetMoves(team, legal): the lists of the pieces of `team`, in list order, concatenated. */
    method GetMoves(team: int, legal: bool) returns (moves: seq<Move>)
      requires SideReady(Pos(), team, legal)
      modifies `board, `arena
      decreases Level(legal), 6
      ensures unchanged(this)
      ensures (set m | m in moves) == AllMoves(Pos(), team, legal, |pieces[team]|)
    {
      moves := [];
      for i := 0 to |pieces[team]|
        invariant unchanged(this)
        invariant (set m | m in moves) == AllMoves(Pos(), team, legal, i)
      {
        var ms := PieceMoves(pieces[team][i], legal);
        assert (set m | m in moves + ms) == (set m | m in moves) + (set m | m in ms);
        moves := moves + ms;
      }
    }

    /** Piece.GetMoves(checkLegality) for arena entry `id`. */
    method PieceMoves(id: nat, legal: bool) returns (ms: seq<Move>)
      requires Ready(Pos(), id, legal)
      modifies `board, `arena
      decreases Level(legal), 5
      ensures unchanged(this)
      ensures (set m | m in ms) == Listed(Pos(), id, legal)
    {
      var p := arena[id];
      ghost var pos := Pos();
      ghost var k := Kept(pos, id, legal);
      var ts: seq<Sq>;
      match p.kind {
        case 'K' =>
          ts := KingMoves(id, p, legal, pos, k);
          if legal {
            ts := KingCastles(id, p, pos, ts);
          }
        case 'Q' =>
          ts := QueenMoves(id, p, legal, pos, k);
        case 'R' =>
          ts := RookMoves(id, p, legal, pos, k);
        case 'B' =>
          ts := BishopMoves(id, p, legal, pos, k);
        case 'N' =>
          ts := KnightMoves(id, p, legal, pos, k);
        case 'P' =>
          ts := PawnMoves(id, p, legal, pos);
        case _ =>
          ts := [];
      }
      ms := Spell(p, ts);
      SpellSet(p, ts);
    }

    /** One visited tile of the king or the knight: listed in attack mode, or when not own and safe. */
    method Visit(id: nat, p: Piece, legal: bool, ghost pos: Position, ghost k: set<Sq>, x: int, y: int, ts: seq<Sq>) returns (ts': seq<Sq>)
      requires Pos() == pos && pos in ReadyFor(id, legal) && pos.arena[id] == p && InBoard(x, y)
      requires k == Kept(pos, id, legal)
      modifies `board, `arena
      decreases Level(legal), 1
      ensures unchanged(this)
      ensures Squares(ts') == Squares(ts) + Jump(x, y) * k
    {
      var t := Sq(x, y);
      var ok := !legal;
      if legal && TileCheck(Pos(), p.team, t) != 0 {
        ok := MoveCheck(id, t);
      }
      KeptIff(pos, id, legal, t);
      ts' := ts;
      if ok {
        SquaresSnoc(ts, t);
        ts' := ts + [t];
      }
    }

    /**
     * Step `i` of one ray: when the square is on the board and the ray's bit
     * is set, an occupied square subtracts the bit, and the square is listed
     * in attack mode, or in legal mode when not own and safe.
     */
    method Probe(id: nat, p: Piece, legal: bool, ghost pos: Position, ghost k: set<Sq>, dx: int, dy: int, bit: int, i: nat,
                 control: set<int>, ts: seq<Sq>)
      returns (control': set<int>, ts': seq<Sq>)
      requires Pos() == pos && pos in ReadyFor(id, legal) && pos.arena[id] == p
      requires k == Kept(pos, id, legal)
      modifies `board, `arena
      decreases Level(legal), 2
      ensures unchanged(this)
      ensures Probes(pos.board, p.at.x, p.at.y, dx, dy, bit, i, control, control')
      ensures Squares(ts') == Squares(ts) + Seen(p.at.x, p.at.y, dx, dy, bit, i, control) * k
    {
      control', ts' := control, ts;
      var x, y := Walk(p.at.x, dx, i), Walk(p.at.y, dy, i);
      if 0 <= x < 8 && 0 <= y < 8 && bit in control {
        var tc := TileCheck(Pos(), p.team, Sq(x, y));
        if tc != 2 {
          control' := control - {bit};
        }
        ts' := Visit(id, p, legal, pos, k, x, y, ts);
      }
    }

    method KingMoves(id: nat, p: Piece, legal: bool, ghost pos: Position, ghost k: set<Sq>) returns (ts: seq<Sq>)
      requires Pos() == pos && pos in ReadyFor(id, legal) && pos.arena[id] == p && p.kind == 'K'
      requires k == Kept(pos, id, legal)
      modifies `board, `arena
      decreases Level(legal), 4
      ensures unchanged(this)
      ensures Squares(ts) == KingSquares(p.at.x, p.at.y) * k
    {
      ts := [];
      for i := Max(0, p.at.x - 1) to Min(p.at.x + 1, 7) + 1
        invariant unchanged(this)
        invariant Squares(ts) == KingColumns(p.at.x, p.at.y, i, k)
      {
        ts := KingRow(id, p, legal, pos, k, i, ts);
      }
      KingScan(p.at.x, p.at.y, k);
    }

    /** The inner king loop over the rows of column `i`, skipping the king's own square. */
    method KingRow(id: nat, p: Piece, legal: bool, ghost pos: Position, ghost k: set<Sq>, i: int, ts: seq<Sq>) returns (ts': seq<Sq>)
      requires Pos() == pos && pos in ReadyFor(id, legal) && pos.arena[id] == p && p.kind == 'K'
      requires k == Kept(pos, id, legal)
      requires Max(0, p.at.x - 1) <= i <= Min(p.at.x + 1, 7)
      modifies `board, `arena
      decreases Level(legal), 3
      ensures unchanged(this)
      ensures Squares(ts') == Squares(ts) + KingColumn(p.at.x, p.at.y, i, Min(p.at.y + 1, 7) + 1, k)
    {
      ts' := ts;
      for j := Max(0, p.at.y - 1) to Min(p.at.y + 1, 7) + 1
        invariant unchanged(this)
        invariant Squares(ts') == Squares(ts) + KingColumn(p.at.x, p.at.y, i, j, k)
      {
        if !(i == p.at.x && j == p.at.y) {
          ts' := Visit(id, p, legal, pos, k, i, j, ts');
        }
      }
    }

    /**
     * The castling part of the king's legal moves: only for an unmoved king
     * not in check; the other team's attack-mode moves are cut to their
     * tails, and each branch that passes lists the c-file square.
     */
    method KingCastles(id: nat, p: Piece, ghost pos: Position, ts: seq<Sq>) returns (ts': seq<Sq>)
      requires Pos() == pos && pos in ReadyFor(id, true) && pos.arena[id] == p && p.kind == 'K'
      modifies `board, `arena
      decreases 2, 3
      ensures unchanged(this)
      ensures Squares(ts') == Squares(ts) + Castles(pos, id)
    {
      assert Ready(pos, id, true);
      ts' := ts;
      if p.moved {
        return;
      }
      var inCheck := CheckCheck(p.team, None);
      if inCheck {
        return;
      }
      var other := if p.team == 0 then 1 else 0;
      var opponentMoves := GetMoves(other, false);
      AllMovesPseudo(pos, other, |pieces[other]|);
      MovesOnBoard(pos, other, false, opponentMoves);
      var tails := Tails(opponentMoves);
      var queenSide := CastleTest(p, pos, other, opponentMoves, tails, 0, 3, 2);
      if queenSide {
        SquaresSnoc(ts', Sq(2, Home(p.team)));
        ts' := ts' + [Sq(2, Home(p.team))];
      }
      var kingSide := CastleTest(p, pos, other, opponentMoves, tails, 7, 5, 6);
      if kingSide {
        SquaresSnoc(ts', Sq(2, Home(p.team)));
        ts' := ts' + [Sq(2, Home(p.team))];
      }
    }

    /** One castling branch's test, reading the corner tile and the back-rank squares on files `pass` and `land`. */
    method CastleTest(p: Piece, ghost pos: Position, other: int, ghost moves: seq<Move>, tails: seq<string>,
                      corner: int, pass: int, land: int)
      returns (b: bool)
      requires Pos() == pos && Sane(pos) && 0 <= p.team < 2 && other == (if p.team == 0 then 1 else 0)
      requires 0 <= corner < 8 && 0 <= pass < 8 && 0 <= land < 8
      requires (set m | m in moves) == AttackMoves(pos, other, |pos.lists[other]|)
      requires forall i | 0 <= i < |moves| :: OnBoard(moves[i])
      requires |tails| == |moves| && forall i | 0 <= i < |moves| :: tails[i] == Text(moves[i])[2..]
      ensures b == Castle(pos, p.team, corner, pass, land)
    {
      var r := if p.team == 0 then 0 else 7;
      TailsAttacked(pos, other, moves, tails, Sq(pass, r));
      TailsAttacked(pos, other, moves, tails, Sq(land, r));
      b := board[corner][r].Some? && !arena[board[corner][r].value].moved
        && TileCheck(Pos(), p.team, Sq(pass, r)) == 2 && SquareName(Sq(pass, r)) !in tails
        && TileCheck(Pos(), p.team, Sq(land, r)) == 2 && SquareName(Sq(land, r)) !in tails;
    }

    method QueenMoves(id: nat, p: Piece, legal: bool, ghost pos: Position, ghost k: set<Sq>) returns (ts: seq<Sq>)
      requires Pos() == pos && pos in ReadyFor(id, legal) && pos.arena[id] == p && p.kind == 'Q'
      requires k == Kept(pos, id, legal)
      modifies `board, `arena
      decreases Level(legal), 4
      ensures unchanged(this)
      ensures Squares(ts) == QueenReach(pos.board, p.at.x, p.at.y, 6) * k
    {
      var control := AllBits;
      ts := [];
      AllBitsOpen(pos.board, p.at.x, p.at.y);
      for i := 1 to 7
        invariant unchanged(this)
        invariant control in QueenControl(pos.board, p.at.x, p.at.y, i - 1)
        invariant Squares(ts) == QueenReach(pos.board, p.at.x, p.at.y, i - 1) * k
      {
        control, ts := QueenIteration(id, p, legal, pos, k, i, control, ts);
      }
    }

    /** One iteration of the queen loop, its eight probes in the source's order. */
    method QueenIteration(id: nat, p: Piece, legal: bool, ghost pos: Position, ghost k: set<Sq>, i: nat, control: set<int>, ts: seq<Sq>)
      returns (control': set<int>, ts': seq<Sq>)
      requires Pos() == pos && pos in ReadyFor(id, legal) && pos.arena[id] == p && p.kind == 'Q' && i >= 1
      requires k == Kept(pos, id, legal)
      requires control in QueenControl(pos.board, p.at.x, p.at.y, i - 1)
      requires Squares(ts) == QueenReach(pos.board, p.at.x, p.at.y, i - 1) * k
      modifies `board, `arena
      decreases Level(legal), 3
      ensures unchanged(this)
      ensures control' in QueenControl(pos.board, p.at.x, p.at.y, i)
      ensures Squares(ts') == QueenReach(pos.board, p.at.x, p.at.y, i) * k
    {
      ghost var c0, a := control, Squares(ts);
      control', ts' := control, ts;
      control', ts' := Probe(id, p, legal, pos, k, 1, 0, 0x01, i, control', ts');
      ghost var c1 := control';
      control', ts' := Probe(id, p, legal, pos, k, 1, 1, 0x80, i, control', ts');
      ghost var c2 := control';
      control', ts' := Probe(id, p, legal, pos, k, 1, -1, 0x40, i, control', ts');
      ghost var c3 := control';
      control', ts' := Probe(id, p, legal, pos, k, -1, 0, 0x02, i, control', ts');
      ghost var c4 := control';
      control', ts' := Probe(id, p, legal, pos, k, -1, 1, 0x20, i, control', ts');
      ghost var c5 := control';
      control', ts' := Probe(id, p, legal, pos, k, -1, -1, 0x10, i, control', ts');
      ghost var c6 := control';
      control', ts' := Probe(id, p, legal, pos, k, 0, 1, 0x04, i, control', ts');
      ghost var c7 := control';
      control', ts' := Probe(id, p, legal, pos, k, 0, -1, 0x08, i, control', ts');
      ghost var c8 := control';
      QueenRound(pos.board, p.at.x, p.at.y, i, k, a, c0, c1, c2, c3, c4, c5, c6, c7, c8);
    }

    /** The rook loop runs seven rounds, one more than the queen's and the bishop's. */
    method RookMoves(id: nat, p: Piece, legal: bool, ghost pos: Position, ghost k: set<Sq>) returns (ts: seq<Sq>)
      requires Pos() == pos && pos in ReadyFor(id, legal) && pos.arena[id] == p && p.kind == 'R'
      requires k == Kept(pos, id, legal)
      modifies `board, `arena
      decreases Level(legal), 4
      ensures unchanged(this)
      ensures Squares(ts) == LineReach(pos.board, p.at.x, p.at.y, 7) * k
    {
      var control := AllBits;
      ts := [];
      AllBitsOpen(pos.board, p.at.x, p.at.y);
      for i := 1 to 8
        invariant unchanged(this)
        invariant LineFlags(pos.board, p.at.x, p.at.y, i - 1, control)
        invariant Squares(ts) == LineReach(pos.board, p.at.x, p.at.y, i - 1) * k
      {
        ghost var c0, a := control, Squares(ts);
        control, ts := Probe(id, p, legal, pos, k, 1, 0, 0x01, i, control, ts);
        ghost var c1 := control;
        control, ts := Probe(id, p, legal, pos, k, -1, 0, 0x02, i, control, ts);
        ghost var c2 := control;
        control, ts := Probe(id, p, legal, pos, k, 0, 1, 0x04, i, control, ts);
        ghost var c3 := control;
        control, ts := Probe(id, p, legal, pos, k, 0, -1, 0x08, i, control, ts);
        ghost var c4 := control;
        LineRound(pos.board, p.at.x, p.at.y, i, k, a, c0, c1, c2, c3, c4);
      }
    }

    method BishopMoves(id: nat, p: Piece, legal: bool, ghost pos: Position, ghost k: set<Sq>) returns (ts: seq<Sq>)
      requires Pos() == pos && pos in ReadyFor(id, legal) && pos.arena[id] == p && p.kind == 'B'
      requires k == Kept(pos, id, legal)
      modifies `board, `arena
      decreases Level(legal), 4
      ensures unchanged(this)
      ensures Squares(ts) == DiagonalReach(pos.board, p.at.x, p.at.y, 6) * k
    {
      var control := AllBits;
      ts := [];
      AllBitsOpen(pos.board, p.at.x, p.at.y);
      for i := 1 to 7
        invariant unchanged(this)
        invariant DiagonalFlags(pos.board, p.at.x, p.at.y, i - 1, control)
        invariant Squares(ts) == DiagonalReach(pos.board, p.at.x, p.at.y, i - 1) * k
      {
        ghost var c0, a := control, Squares(ts);
        control, ts := Probe(id, p, legal, pos, k, 1, 1, 0x80, i, control, ts);
        ghost var c1 := control;
        control, ts := Probe(id, p, legal, pos, k, 1, -1, 0x40, i, control, ts);
        ghost var c2 := control;
        control, ts := Probe(id, p, legal, pos, k, -1, 1, 0x20, i, control, ts);
        ghost var c3 := control;
        control, ts := Probe(id, p, legal, pos, k, -1, -1, 0x10, i, control, ts);
        ghost var c4 := control;
        DiagonalRound(pos.board, p.at.x, p.at.y, i, k, a, c0, c1, c2, c3, c4);
      }
    }

    /** The eight jumps in the source's order, each pair of columns under its own bound. */
    method KnightMoves(id: nat, p: Piece, legal: bool, ghost pos: Position, ghost k: set<Sq>) returns (ts: seq<Sq>)
      requires Pos() == pos && pos in ReadyFor(id, legal) && pos.arena[id] == p && p.kind == 'N'
      requires k == Kept(pos, id, legal)
      modifies `board, `arena
      decreases Level(legal), 4
      ensures unchanged(this)
      ensures Squares(ts) == KnightJumps(p.at.x, p.at.y) * k
    {
      ts := KnightTwo(id, p, legal, pos, k, p.at.x + 2 < 8, p.at.x - 2 >= 0, 0, []);
      ts := KnightTwo(id, p, legal, pos, k, p.at.x + 1 < 8, p.at.x - 1 >= 0, 2, ts);
      KnightScan(p.at.x, p.at.y, k);
    }

    /** The knight's columns `n` and `n + 1`, each under its own guard. */
    method KnightTwo(id: nat, p: Piece, legal: bool, ghost pos: Position, ghost k: set<Sq>, guard: bool, guard': bool, n: nat, ts: seq<Sq>)
      returns (ts': seq<Sq>)
      requires Pos() == pos && pos in ReadyFor(id, legal) && pos.arena[id] == p && p.kind == 'N'
      requires k == Kept(pos, id, legal)
      requires guard <==> 0 <= p.at.x + KnightDx(n) < 8
      requires guard' <==> 0 <= p.at.x + KnightDx(n + 1) < 8
      requires Squares(ts) == KnightChain(p.at.x, p.at.y, n, k)
      modifies `board, `arena
      decreases Level(legal), 3
      ensures unchanged(this)
      ensures Squares(ts') == KnightChain(p.at.x, p.at.y, n + 2, k)
    {
      ts' := KnightPair(id, p, legal, pos, k, guard, n, ts);
      ts' := KnightPair(id, p, legal, pos, k, guard', n + 1, ts');
    }

    /** The jumps into the knight's column `n` when `guard` holds: rows y + dy, then y - dy, each when on the board. */
    method KnightPair(id: nat, p: Piece, legal: bool, ghost pos: Position, ghost k: set<Sq>, guard: bool, n: nat, ts: seq<Sq>)
      returns (ts': seq<Sq>)
      requires Pos() == pos && pos in ReadyFor(id, legal) && pos.arena[id] == p && p.kind == 'N'
      requires k == Kept(pos, id, legal)
      requires guard <==> 0 <= p.at.x + KnightDx(n) < 8
      modifies `board, `arena
      decreases Level(legal), 2
      ensures unchanged(this)
      ensures Squares(ts') == Squares(ts) + KnightColumn(p.at.x, p.at.y, n, k)
    {
      var nx, y, dy := p.at.x + KnightDx(n), p.at.y, KnightDy(n);
      ts' := ts;
      if guard {
        if y + dy < 8 {
          ts' := Visit(id, p, legal, pos, k, nx, y + dy, ts');
        }
        if y - dy >= 0 {
          ts' := Visit(id, p, legal, pos, k, nx, y - dy, ts');
        }
      }
    }

    /**
     * The pawn, when the rank ahead is on the board: in legal mode the push
     * onto an empty tile, and after it the double push of an unmoved pawn;
     * then the diagonals x+1 and x-1. (The suffix `q` of a push onto rank
     * index 0 or 7 is attached by `Spell`.)
     */
    method PawnMoves(id: nat, p: Piece, legal: bool, ghost pos: Position) returns (ts: seq<Sq>)
      requires Pos() == pos && pos in ReadyFor(id, legal) && pos.arena[id] == p && p.kind == 'P'
      modifies `board, `arena
      decreases Level(legal), 4
      ensures unchanged(this)
      ensures Squares(ts) == PawnTargets(pos, id, legal)
    {
      var x, y := p.at.x, p.at.y;
      var direction := if p.team == 0 then 1 else -1;
      ts := [];
      if y + direction >= 0 && y + direction < 8 {
        ts := PawnPushes(id, p, legal, pos);
        if x + 1 < 8 {
          ts := PawnDiagonal(id, p, legal, pos, x + 1, ts);
        }
        if x - 1 >= 0 {
          ts := PawnDiagonal(id, p, legal, pos, x - 1, ts);
        }
      }
    }

    /** The pawn's pushes, listed in legal mode only. */
    method PawnPushes(id: nat, p: Piece, legal: bool, ghost pos: Position) returns (ts: seq<Sq>)
      requires Pos() == pos && pos in ReadyFor(id, legal) && pos.arena[id] == p && p.kind == 'P'
      requires 0 <= p.at.y + Dir(p.team) < 8
      modifies `board, `arena
      decreases Level(legal), 3
      ensures unchanged(this)
      ensures Squares(ts) == PushTargets(pos, id, legal)
    {
      assert Ready(pos, id, legal);
      var t := Sq(p.at.x, p.at.y + Dir(p.team));
      ts := [];
      var ok := false;
      if legal {
        ok := Push(id, p, pos, t);
      }
      if ok {
        SquaresSnoc([], t);
        ts := [t];
        if !p.moved {
          t := Sq(p.at.x, p.at.y + 2 * Dir(p.team));
          var ok2 := Push(id, p, pos, t);
          SquaresSnoc(ts, t);
          if ok2 {
            ts := ts + [t];
          }
        }
      }
    }

    /** One push of the pawn: the tile must be empty, and only then is the trial run. */
    method Push(id: nat, p: Piece, ghost pos: Position, t: Sq) returns (ok: bool)
      requires Pos() == pos && pos in ReadyFor(id, true) && pos.arena[id] == p && InBoard(t.x, t.y)
      modifies `board, `arena
      decreases 2, 2
      ensures unchanged(this)
      ensures ok == Pushes(pos, id, t)
    {
      assert Ready(pos, id, true);
      ok := false;
      if TileCheck(Pos(), p.team, t) == 2 {
        ok := MoveCheck(id, t);
      }
    }

    /**
     * A pawn's diagonal onto file `i`: in legal mode the trial runs first,
     * then the tile must hold another team's piece, or en passant must be
     * on with the last move's text starting with file `i`.
     */
    method PawnDiagonal(id: nat, p: Piece, legal: bool, ghost pos: Position, i: int, ts: seq<Sq>) returns (ts': seq<Sq>)
      requires Pos() == pos && pos in ReadyFor(id, legal) && pos.arena[id] == p && p.kind == 'P'
      requires 0 <= p.at.y + Dir(p.team) < 8 && 0 <= i < 8 && (i == p.at.x + 1 || i == p.at.x - 1)
      modifies `board, `arena
      decreases Level(legal), 3
      ensures unchanged(this)
      ensures Squares(ts') == Squares(ts) + Diagonal(pos, id, legal, i)
    {
      assert Ready(pos, id, legal);
      var t := Sq(i, p.at.y + Dir(p.team));
      var ok := true;
      if legal {
        assert enPassant ==> |moveList| > 0 && |moveList[|moveList| - 1]| > 0;
        ok := MoveCheck(id, t);
        ok := ok && (TileCheck(Pos(), p.team, t) == 1 ||
          (enPassant && moveList[|moveList| - 1][0] as int - 'a' as int - (i - p.at.x) == p.at.x));
      }
      ts' := ts;
      if ok {
        SquaresSnoc(ts, t);
        ts' := ts + [t];
      }
    }

    /** CheckMate: the side to move is in check, and only then is it asked for its legal moves, of which it has none. */
    method CheckMate() returns (r: bool)
      requires 0 <= CsMod(turn, 2) && SideReady(Pos(), CsMod(turn, 2), true)
      modifies `board, `arena
      ensures unchanged(this)
      ensures r <==> InCheck(Pos(), CsMod(turn, 2), None) && AllMoves(Pos(), CsMod(turn, 2), true, |pieces[CsMod(turn, 2)]|) == {}
    {
      var side := CsMod(turn, 2);
      r := CheckCheck(side, None);
      if r {
        var moves := GetMoves(side, true);
        NoneListed(moves);
        r := |moves| == 0;
      }
    }

    /**
     * Update: nothing once the game is over; otherwise the next turn and
     * half move (C# `int` increments, which wrap at 2^31), checkmate of the side now to move, and the end of the game
     * on checkmate, on no legal moves, or at 100 half moves.
     */
    method Update() returns (over: bool)
      requires !gameOver ==> 0 <= CsMod(Wrap32(turn + 1), 2) && SideReady(Pos(), CsMod(Wrap32(turn + 1), 2), true)
      modifies `turn, `halfMoveCounter, `checkMate, `gameOver, `board, `arena
      ensures old(gameOver) ==> over && unchanged(this)
      ensures !old(gameOver) ==>
        Pos() == old(Pos()) && moveList == old(moveList) && enPassant == old(enPassant) &&
        turn == Wrap32(old(turn) + 1) && halfMoveCounter == Wrap32(old(halfMoveCounter) + 1)
      ensures !old(gameOver) ==> Ended(over)
    {
      if gameOver {
        return true;
      }
      over := NextTurn();
    }

    /** After a turn: checkmate of the side to move, and the end of the game on checkmate, no legal moves or 100 half moves. */
    ghost predicate Ended(over: bool)
      reads `turn, `halfMoveCounter, `checkMate, `gameOver, `board, `arena, `pieces, `enPassant, `moveList
      requires 0 <= CsMod(turn, 2) && SideReady(Pos(), CsMod(turn, 2), true)
    {
      var side := CsMod(turn, 2);
      var none := AllMoves(Pos(), side, true, |pieces[side]|) == {};
      checkMate == (InCheck(Pos(), side, None) && none) &&
      gameOver == (checkMate || none || halfMoveCounter >= 100) && over == gameOver
    }

    /** The part of Update that runs while the game goes on. */
    method NextTurn() returns (over: bool)
      requires 0 <= CsMod(Wrap32(turn + 1), 2) && SideReady(Pos(), CsMod(Wrap32(turn + 1), 2), true)
      modifies `turn, `halfMoveCounter, `checkMate, `gameOver, `board, `arena
      ensures Pos() == old(Pos()) && moveList == old(moveList) && enPassant == old(enPassant)
      ensures turn == Wrap32(old(turn) + 1) && halfMoveCounter == Wrap32(old(halfMoveCounter) + 1)
      ensures 0 <= CsMod(turn, 2) && SideReady(Pos(), CsMod(turn, 2), true) && Ended(over)
    {
      turn := Wrap32(turn + 1);
      halfMoveCounter := Wrap32(halfMoveCounter + 1);
      over := Judge();
    }

    /** The checkmate and game-over tests of Update, for the side whose turn it now is. */
    method Judge() returns (over: bool)
      requires 0 <= CsMod(turn, 2) && SideReady(Pos(), CsMod(turn, 2), true)
      modifies `checkMate, `gameOver, `board, `arena
      ensures Pos() == old(Pos())
      ensures Ended(over)
    {
      checkMate := CheckMate();
      gameOver := checkMate;
      var moves := GetMoves(CsMod(turn, 2), true);
      NoneListed(moves);
      if (|moves| == 0 || halfMoveCounter >= 100) && !checkMate {
        gameOver := true;
      }
      return gameOver;
    }

    /** The fields MovePiece writes. */
    function Snapshot(): Fields
      reads `board, `arena, `pieces, `halfMoveCounter, `moveList, `enPassant
    {
      Fields(board, arena, pieces, halfMoveCounter, moveList, enPassant)
    }

    /** MovePiece can run on `move`: it names two squares, a piece stands on the first, and a listed move can be applied. */
    ghost predicate CanPlay(move: string)
      reads this
    {
      Legible(move) && Sane(Pos()) && board[move[0] as int - 'a' as int][move[1] as int - '1' as int].Some? &&
      Ready(Pos(), Mover(move), true) &&
      (Accepts(Pos(), Mover(move), move) ==>
         Playable(Snapshot(), Mover(move), SquareAt(move, 2), CsMod(turn + 1, 2), Promotion(move)))
    }

    function Mover(move: string): nat
      reads `board
      requires Legible(move) && IsGrid(board) && board[move[0] as int - 'a' as int][move[1] as int - '1' as int].Some?
    {
      board[move[0] as int - 'a' as int][move[1] as int - '1' as int].value
    }

    /**
     * MovePiece(move): false, with nothing changed, unless the string is
     * one of the legal move texts of the piece on its first square;
     * otherwise the move is applied as `Play` describes.
     */
    method MovePiece(move: string) returns (ok: bool)
      requires CanPlay(move)
      modifies `board, `pieces, `arena, `halfMoveCounter, `moveList, `enPassant
      ensures ok == Accepts(old(Pos()), old(Mover(move)), move)
      ensures !ok ==> unchanged(this)
      ensures ok ==> Snapshot() == Play(old(Snapshot()), old(Mover(move)), SquareAt(move, 2), old(CsMod(turn + 1, 2)), Promotion(move), old(Passing()))
    {
      var piece := board[move[0] as int - 'a' as int][move[1] as int - '1' as int].value;
      var target := Sq(move[2] as int - 'a' as int, move[3] as int - '1' as int);
      var pawnPromotion := 'P';
      if |move| > 4 {
        pawnPromotion := Upper(move[4]);
      }
      var opp := CsMod(turn + 1, 2);
      ghost var pos, f0, ep := Pos(), Snapshot(), Passing();
      assert piece == Mover(move) && target == SquareAt(move, 2) && pawnPromotion == Promotion(move);
      ok := Listing(piece, move);
      if !ok {
        return;
      }
      assert Playable(f0, piece, target, opp, pawnPromotion);
      assert f0 in PlayableFor(piece, target, opp, pawnPromotion);
      AcceptedPassing(pos, piece, move);
      ok := Apply(piece, target, pawnPromotion, opp, f0, ep);
    }

    /** The acceptance test of MovePiece: the piece's legal moves, and whether one of their texts is `move`. */
    method Listing(piece: nat, move: string) returns (found: bool)
      requires Legible(move) && Ready(Pos(), piece, true)
      modifies `board, `arena
      ensures board == old(board) && arena == old(arena)
      ensures found == Accepts(Pos(), piece, move)
    {
      ghost var pos := Pos();
      var moves := PieceMoves(piece, true);
      forall i | 0 <= i < |moves|
        ensures OnBoard(moves[i])
      {
        assert moves[i] in (set m | m in moves);
        ListedOnBoard(pos, piece, true, moves[i]);
      }
      AcceptsIff(pos, piece, move, moves);
      found := Contains(moves, move);
    }

    /** The part of MovePiece after the acceptance test. */
    method Apply(piece: nat, target: Sq, pawnPromotion: char, opp: int, ghost f0: Fields, ghost ep: Passant)
      returns (ok: bool)
      requires Snapshot() == f0 && Passing() == ep && CsMod(turn + 1, 2) == opp && f0 in PlayableFor(piece, target, opp, pawnPromotion)
      requires f0.arena[piece].kind == 'P' && Abs(target.x - f0.arena[piece].at.x) == 1 ==>
        0 <= target.y + Back(f0.arena[piece].team) < 8
      modifies `board, `pieces, `arena, `halfMoveCounter, `moveList, `enPassant
      ensures ok
      ensures Snapshot() == Play(f0, piece, target, opp, pawnPromotion, ep)
    {
      var moveString := Steps(piece, target, pawnPromotion, opp, f0);
      Announce(piece, target, moveString, opp, Snapshot(), ep);
      return true;
    }

    /** The end of MovePiece: `+` when the other side is now in check, the text recorded, the en-passant flag recomputed. */
    method Announce(piece: nat, target: Sq, moveString: string, opp: int, ghost g: Fields, ghost ep: Passant)
      requires Snapshot() == g && Passing() == ep && Sane(At(g, Off)) && 0 <= opp < 2
      requires piece < |arena| && arena[piece].at == target
      modifies `board, `arena, `moveList, `enPassant
      ensures Snapshot() == g.(moveList := g.moveList + [moveString + (if InCheck(At(g, ep), opp, None) then "+" else "")], enPassant := false)
    {
      assert Pos() == At(g, ep);
      var check := CheckCheck(opp, None);
      assert check == InCheck(At(g, ep), opp, None);
      var text := moveString;
      if check {
        text := text + "+";
      }
      enPassant := arena[piece].kind == 'P' && Abs(arena[piece].at.y - target.y) == 2;
      moveList := moveList + [text];
      assert text == moveString + (if check then "+" else "");
      assert !enPassant;
      assert board == g.board && arena == g.arena;
      assert moveList == g.moveList + [text];
    }

    /** MovePiece from the pawn branch to the relocation, building the text up to its check mark. */
    method Steps(piece: nat, target: Sq, pawnPromotion: char, opp: int, ghost f0: Fields) returns (moveString: string)
      requires Snapshot() == f0 && f0 in PlayableFor(piece, target, opp, pawnPromotion)
      requires arena[piece].kind == 'P' && board[target.x][target.y].None? && Abs(target.x - arena[piece].at.x) == 1 ==>
        0 <= target.y + Back(arena[piece].team) < 8
      modifies `board, `pieces, `arena, `halfMoveCounter
      ensures Playable(f0, piece, target, opp, pawnPromotion)
      ensures Snapshot() == Moved(f0, piece, target, opp, pawnPromotion)
      ensures moveString == MoveText(f0, piece, target, opp, pawnPromotion)
    {
      assert Playable(f0, piece, target, opp, pawnPromotion);
      var p := arena[piece];
      var takes;
      moveString, takes := Front(piece, target, pawnPromotion, opp, f0);
      ghost var f1 := PawnFirst(f0, piece, target, opp, pawnPromotion);
      ghost var f2 := Snapshot();
      assert f2 == Capture(f1, target, opp);
      PawnPartSane(f0, piece, target, opp, pawnPromotion);
      CaptureSane(f1, target, opp);
      moveString := moveString + SquareName(target);
      var castles := Rear(piece, target, f2);
      if castles {
        moveString := "O-O" + (if target.x == 2 then "-O" else "");
      }
      assert moveString == Notation(p, castles, takes, target);
    }

    /** The pawn branch and the capture, with the text before the target's name. */
    method Front(piece: nat, target: Sq, pawnPromotion: char, opp: int, ghost f0: Fields) returns (prefix: string, takes: bool)
      requires Snapshot() == f0 && Playable(f0, piece, target, opp, pawnPromotion)
      requires arena[piece].kind == 'P' && board[target.x][target.y].None? && Abs(target.x - arena[piece].at.x) == 1 ==>
        0 <= target.y + Back(arena[piece].team) < 8
      modifies `board, `pieces, `arena, `halfMoveCounter
      ensures Snapshot() == Capture(PawnFirst(f0, piece, target, opp, pawnPromotion), target, opp)
      ensures takes == PawnFirst(f0, piece, target, opp, pawnPromotion).board[target.x][target.y].Some?
      ensures prefix == (if f0.arena[piece].kind == 'P' then (if f0.arena[piece].at.x != target.x then [('a' as int + f0.arena[piece].at.x) as char] else []) else [f0.arena[piece].kind]) +
        (if takes then "x" else "")
    {
      prefix := "";
      var p := arena[piece];
      if p.kind == 'P' {
        if p.at.x != target.x {
          prefix := prefix + [('a' as int + p.at.x) as char];
        }
        PawnStep(piece, target, opp, pawnPromotion);
      } else {
        prefix := prefix + [p.kind];
      }
      ghost var lead := prefix;
      takes := CaptureStep(target, opp);
      if takes {
        prefix := prefix + "x";
      }
      assert prefix == lead + (if takes then "x" else "");
    }

    /** The castling rook and the relocation. */
    method Rear(piece: nat, target: Sq, ghost f2: Fields) returns (castles: bool)
      requires Snapshot() == f2 && Sane(At(f2, Off)) && Placed(At(f2, Off), piece) && InBoard(target.x, target.y)
      requires Castling(f2, piece, target) ==> f2.board[Corner(target)][target.y].Some?
      modifies `board, `arena
      ensures castles == Castling(f2, piece, target)
      ensures Snapshot() == Relocate(CastleRook(f2, piece, target), piece, target)
    {
      castles := CastleStep(piece, target);
      RelocateStep(piece, target);
    }

    /** The pawn branch of MovePiece: the half-move reset, the en-passant capture and the promotion. */
    method PawnStep(piece: nat, target: Sq, opp: int, pawnPromotion: char)
      requires IsGrid(board) && |pieces| == 2 && piece < |arena| && InBoard(target.x, target.y) && 0 <= opp < 2
      requires arena[piece].kind == 'P'
      requires board[target.x][target.y].None? && Abs(target.x - arena[piece].at.x) == 1 ==>
        0 <= target.y + Back(arena[piece].team) < 8
      modifies `board, `pieces, `arena, `halfMoveCounter
      ensures Snapshot() == PawnPart(old(Snapshot()), piece, target, opp, pawnPromotion)
    {
      var p := arena[piece];
      halfMoveCounter := 0;
      if board[target.x][target.y].None? && Abs(target.x - p.at.x) == 1 {
        var d := if p.team == 0 then -1 else 1;
        var victim := board[target.x][target.y + d];
        if victim.Some? {
          var kept := RemoveFirst(pieces[opp], victim.value);
          pieces := pieces[opp := kept];
        }
        board := SetCell(board, target.x, target.y + d, None);
      }
      if (p.team == 0 && target.y == 7) || (p.team == 1 && target.y == 0) {
        arena := arena[piece := arena[piece].(kind := pawnPromotion)];
      }
    }

    /** The capture branch: a piece on the target leaves the list of `opp` (the loop with `break`). */
    method CaptureStep(target: Sq, opp: int) returns (takes: bool)
      requires IsGrid(board) && |pieces| == 2 && InBoard(target.x, target.y) && 0 <= opp < 2
      modifies `pieces, `halfMoveCounter
      ensures takes == board[target.x][target.y].Some?
      ensures Snapshot() == Capture(old(Snapshot()), target, opp)
    {
      takes := board[target.x][target.y].Some?;
      if takes {
        halfMoveCounter := 0;
        var kept := RemoveFirst(pieces[opp], board[target.x][target.y].value);
        pieces := pieces[opp := kept];
      }
    }

    /** The castling branch: the rook on the corner tile goes to the landing tile. */
    method CastleStep(piece: nat, target: Sq) returns (castles: bool)
      requires Sane(At(Snapshot(), Off)) && piece < |arena| && InBoard(target.x, target.y)
      requires Castling(Snapshot(), piece, target) ==> board[Corner(target)][target.y].Some?
      modifies `board, `arena
      ensures castles == Castling(old(Snapshot()), piece, target)
      ensures Snapshot() == CastleRook(old(Snapshot()), piece, target)
    {
      castles := arena[piece].kind == 'K' && Abs(arena[piece].at.x - target.x) == 2;
      if castles {
        var corner, landing := if target.x == 6 then 7 else 0, if target.x == 6 then 5 else 3;
        var rook := board[corner][target.y].value;
        arena := arena[rook := arena[rook].(at := Sq(landing, target.y))];
        board := SetCell(board, landing, target.y, Some(rook));
        board := SetCell(board, corner, target.y, None);
      }
    }

    /** The piece's tile is cleared, the piece and the target point at each other, and the piece is marked as moved. */
    method RelocateStep(piece: nat, target: Sq)
      requires IsGrid(board) && piece < |arena| && InBoard(arena[piece].at.x, arena[piece].at.y) && InBoard(target.x, target.y)
      modifies `board, `arena
      ensures Snapshot() == Relocate(old(Snapshot()), piece, target)
    {
      var at := arena[piece].at;
      board := SetCell(board, at.x, at.y, None);
      arena := arena[piece := arena[piece].(at := target)];
      board := SetCell(board, target.x, target.y, Some(piece));
      arena := arena[piece := arena[piece].(moved := true)];
    }
  }
}
