/**
 * The revision of the game in ChessGame.cs: a `Game` owns an 8 by 8 grid of
 * tiles and two arrays of sixteen nullable pieces; legality is decided by
 * trying a move, asking whether the mover's king is attacked, and undoing
 * the trial; a capture nulls the captured piece's array slot.
 *
 * Model. A tile object never changes its coordinates, so a tile is its
 * square `Sq(x, y)` and the grid only records which piece object each tile
 * points at. A piece object is created once, in one array slot, and never
 * moves to another slot, so its identity is that slot, `Id(side, index)`;
 * a tile points at a piece by holding its `Id`, and nulling the slot is
 * the only way a piece leaves the game. The values a piece carries (type
 * letter, team and the tile it points at) are the record `Piece`.
 */
module TrialGame {
  import opened Geometry

  /** A piece: its type letter, its team (0 moves first) and the square of its tile. */
  datatype Piece = Piece(kind: char, team: int, at: Sq)

  /** The identity of a piece object: the slot `pieces[side][index]` it was created in. */
  datatype Id = Id(side: int, index: int)

  /** What move generation reads: the piece each tile points at, and the two piece arrays. */
  datatype Position = Position(board: seq<seq<Option<Id>>>, pieces: seq<seq<Option<Piece>>>)

  const BackRank: string := "RNBQKBNR"

  predicate IsSlot(id: Id) {
    0 <= id.side < 2 && 0 <= id.index < 16
  }

  predicate Shaped(pos: Position) {
    IsGrid(pos.board) && |pos.pieces| == 2 && |pos.pieces[0]| == 16 && |pos.pieces[1]| == 16
  }

  /** The slot of `id` still holds its piece. */
  predicate Live(pos: Position, id: Id)
    requires Shaped(pos)
  {
    IsSlot(id) && pos.pieces[id.side][id.index].Some?
  }

  function PieceOf(pos: Position, id: Id): Piece
    requires Shaped(pos) && Live(pos, id)
  {
    pos.pieces[id.side][id.index].value
  }

  /** The piece arrays with the slot of `id` set to `v`. */
  function SetSlot(ps: seq<seq<Option<Piece>>>, id: Id, v: Option<Piece>): (r: seq<seq<Option<Piece>>>)
    requires |ps| == 2 && |ps[0]| == 16 && |ps[1]| == 16 && IsSlot(id)
    ensures |r| == 2 && |r[0]| == 16 && |r[1]| == 16
    ensures forall s, i | 0 <= s < 2 && 0 <= i < 16 :: r[s][i] == if Id(s, i) == id then v else ps[s][i]
  {
    ps[id.side := ps[id.side][id.index := v]]
  }

  /** Setting a slot and then writing back its old value gives the arrays back. */
  lemma SetSlotRestore(ps: seq<seq<Option<Piece>>>, id: Id, v: Option<Piece>)
    requires |ps| == 2 && |ps[0]| == 16 && |ps[1]| == 16 && IsSlot(id)
    ensures SetSlot(SetSlot(ps, id, v), id, ps[id.side][id.index]) == ps
  {
    var r := SetSlot(SetSlot(ps, id, v), id, ps[id.side][id.index]);
    forall s | 0 <= s < 2
      ensures r[s] == ps[s]
    {
      assert forall i | 0 <= i < 16 :: r[s][i] == ps[s][i];
    }
  }

  /** Every piece a tile points at is still held in its slot. */
  ghost predicate Linked(pos: Position) {
    Shaped(pos) &&
    forall x, y | InBoard(x, y) && pos.board[x][y].Some? :: Live(pos, pos.board[x][y].value)
  }

  /**
   * The links between tiles and pieces agree both ways: a tile's piece
   * stands on that tile, and every piece still in the arrays plays for the
   * side of its array and stands on a tile of the board that points at it.
   */
  ghost predicate Valid(pos: Position) {
    Linked(pos) &&
    (forall x, y | InBoard(x, y) && pos.board[x][y].Some? :: PieceOf(pos, pos.board[x][y].value).at == Sq(x, y)) &&
    (forall s, i | 0 <= s < 2 && 0 <= i < 16 && pos.pieces[s][i].Some? ::
       pos.pieces[s][i].value.team == s &&
       InBoard(pos.pieces[s][i].value.at.x, pos.pieces[s][i].value.at.y) &&
       pos.board[pos.pieces[s][i].value.at.x][pos.pieces[s][i].value.at.y] == Some(Id(s, i)))
  }

  /** The other team, computed as the source does. */
  function Opponent(team: int): int {
    (team + 1) % 2
  }

  /** Piece.tileCheck: 0 for a tile holding a piece of `team`, 1 for another team's piece, 2 for an empty tile. */
  function TileCheck(pos: Position, team: int, t: Sq): (r: int)
    requires Linked(pos) && InBoard(t.x, t.y)
    ensures r == 2 <==> pos.board[t.x][t.y] == None
    ensures r == 0 <==> pos.board[t.x][t.y].Some? && PieceOf(pos, pos.board[t.x][t.y].value).team == team
    ensures r == 1 <==> pos.board[t.x][t.y].Some? && PieceOf(pos, pos.board[t.x][t.y].value).team != team
  {
    match pos.board[t.x][t.y]
    case None => 2
    case Some(id) => if PieceOf(pos, id).team == team then 0 else 1
  }

  // ---------------------------------------------------------------------
  // The squares a piece's generator visits
  // ---------------------------------------------------------------------

  function Dir(team: int): int {
    if team == 0 then 1 else -1
  }

  predicate OnStartRank(p: Piece) {
    (p.team == 0 && p.at.y == 1) || (p.team == 1 && p.at.y == 6)
  }

  /**
   * The generator of `p` stays inside the grid. Two reads are unguarded in
   * the source: a knight's last two jumps are guarded by `x - 1 < 8`, which
   * is always true, so a knight on the a-file reads column -1; and the pawn
   * reads the tile ahead of it without a bounds check.
   */
  predicate Generable(p: Piece) {
    InBoard(p.at.x, p.at.y) &&
    (p.kind == 'N' ==> p.at.x >= 1) &&
    (p.kind == 'P' ==> 0 <= p.at.y + Dir(p.team) < 8)
  }

  predicate AllGenerable(pos: Position, side: int)
    requires Shaped(pos) && 0 <= side < 2
  {
    forall i | 0 <= i < 16 && pos.pieces[side][i].Some? :: Generable(pos.pieces[side][i].value)
  }

  /** The pawn's squares: ahead, two ahead from its start rank, and the two diagonals ahead. */
  function PawnSquares(p: Piece): set<Sq> {
    var x, y, d := p.at.x, p.at.y, Dir(p.team);
    {Sq(x, y + d)} +
    (if OnStartRank(p) then {Sq(x, y + 2 * d)} else {}) +
    (if x + 1 < 8 then {Sq(x + 1, y + d)} else {}) +
    (if x - 1 >= 0 then {Sq(x - 1, y + d)} else {})
  }

  /** Every square the generator of `p` visits; in attack mode it lists exactly these. */
  function Candidates(pos: Position, p: Piece): set<Sq>
    requires Shaped(pos) && Generable(p)
  {
    var x, y := p.at.x, p.at.y;
    match p.kind
    case 'K' => KingSquares(x, y)
    case 'Q' => QueenReach(pos.board, x, y, 6)
    case 'R' => LineReach(pos.board, x, y, 6)
    case 'B' => DiagonalReach(pos.board, x, y, 6)
    case 'N' => KnightJumps(x, y)
    case 'P' => PawnSquares(p)
    case _ => {}
  }

  /** Everything the pieces of `side` in slots `0 .. n-1` attack. */
  function Attacks(pos: Position, side: int, n: nat): set<Sq>
    requires Shaped(pos) && 0 <= side < 2 && n <= 16 && AllGenerable(pos, side)
  {
    if n == 0 then {}
    else
      var rest := Attacks(pos, side, n - 1);
      if pos.pieces[side][n - 1].Some? then rest + Candidates(pos, pos.pieces[side][n - 1].value) else rest
  }

  // ---------------------------------------------------------------------
  // Check and the trial move
  // ---------------------------------------------------------------------

  /** `checkCheck(team)` can run: the king's slot is not null and the opponent's generators stay on the grid. */
  predicate KingReady(pos: Position, team: int)
    requires Shaped(pos)
  {
    0 <= team < 2 && Live(pos, Id(team, 4)) && AllGenerable(pos, Opponent(team))
  }

  /** The piece in slot 4 of `team`, its king, stands on a square the other team attacks. */
  predicate InCheck(pos: Position, team: int)
    requires Linked(pos) && KingReady(pos, team)
  {
    PieceOf(pos, Id(team, 4)).at in Attacks(pos, Opponent(team), 16)
  }

  /**
   * The position `moveCheck` examines: the piece left its tile and points at
   * `t`, and `t` points at it. A piece that stood on `t` stays in its slot,
   * still pointing at `t`.
   */
  function Trial(pos: Position, id: Id, t: Sq): (r: Position)
    requires Valid(pos) && Live(pos, id) && InBoard(t.x, t.y)
    ensures Linked(r)
    ensures forall s, i | 0 <= s < 2 && 0 <= i < 16 :: r.pieces[s][i].Some? == pos.pieces[s][i].Some?
    ensures forall s, i | 0 <= s < 2 && s != id.side && 0 <= i < 16 :: r.pieces[s][i] == pos.pieces[s][i]
  {
    var p := PieceOf(pos, id);
    var cleared := SetCell(pos.board, p.at.x, p.at.y, None);
    Position(SetCell(cleared, t.x, t.y, Some(id)), SetSlot(pos.pieces, id, Some(p.(at := t))))
  }

  /** Moving `id` to `t` does not leave its own king attacked. */
  predicate Safe(pos: Position, id: Id, t: Sq)
    requires Valid(pos) && Live(pos, id) && InBoard(t.x, t.y) && KingReady(pos, PieceOf(pos, id).team)
  {
    var team := PieceOf(pos, id).team;
    assert KingReady(Trial(pos, id, t), team);
    !InCheck(Trial(pos, id, t), team)
  }

  // ---------------------------------------------------------------------
  // Targets
  // ---------------------------------------------------------------------

  /** `Piece.getMoves(legal)` can run for `id`. */
  ghost predicate Ready(pos: Position, id: Id, legal: bool) {
    Linked(pos) && Live(pos, id) && Generable(PieceOf(pos, id)) &&
    (legal ==> Valid(pos) && KingReady(pos, PieceOf(pos, id).team))
  }

  /** The positions in which `Piece.getMoves(legal)` can run for `id`. */
  ghost function ReadyFor(id: Id, legal: bool): iset<Position> {
    iset pos | Ready(pos, id, legal)
  }

  /**
   * The tile test of legal mode: a pawn goes straight only onto an empty
   * tile and diagonally only onto an enemy; every other piece goes onto any
   * tile not holding its own team.
   */
  predicate Wanted(pos: Position, p: Piece, t: Sq)
    requires Linked(pos) && InBoard(t.x, t.y)
  {
    var tc := TileCheck(pos, p.team, t);
    if p.kind == 'P' then (if t.x == p.at.x then tc == 2 else tc == 1) else tc != 0
  }

  /** Whether a visited square is listed: always in attack mode, and in legal mode when wanted and safe. */
  ghost predicate Keep(pos: Position, id: Id, legal: bool, t: Sq)
    requires Ready(pos, id, legal)
  {
    !legal || (InBoard(t.x, t.y) && Wanted(pos, PieceOf(pos, id), t) && Safe(pos, id, t))
  }

  /** The squares of the board that `id` would list if its generator visited them. */
  ghost function Kept(pos: Position, id: Id, legal: bool): set<Sq>
    requires Ready(pos, id, legal)
  {
    set x, y | 0 <= x < 8 && 0 <= y < 8 && Keep(pos, id, legal, Sq(x, y)) :: Sq(x, y)
  }

  lemma KeptIff(pos: Position, id: Id, legal: bool, t: Sq)
    requires Ready(pos, id, legal)
    ensures t in Kept(pos, id, legal) <==> InBoard(t.x, t.y) && Keep(pos, id, legal, t)
  {
    if InBoard(t.x, t.y) && Keep(pos, id, legal, t) {
      assert Sq(t.x, t.y) == t;
    }
  }

  /** The squares `Piece.getMoves(legal)` lists for `id`: the visited squares it keeps. */
  ghost function Targets(pos: Position, id: Id, legal: bool): set<Sq>
    requires Ready(pos, id, legal)
  {
    Candidates(pos, PieceOf(pos, id)) * Kept(pos, id, legal)
  }

  /** `getMoves(side, legal)` can run. */
  ghost predicate SideReady(pos: Position, side: int, legal: bool) {
    Linked(pos) && 0 <= side < 2 && AllGenerable(pos, side) && (legal ==> Valid(pos) && KingReady(pos, side))
  }

  /** The squares listed for the pieces of `side` in slots `0 .. n-1`. */
  ghost function AllTargets(pos: Position, side: int, legal: bool, n: nat): set<Sq>
    requires SideReady(pos, side, legal) && n <= 16
  {
    if n == 0 then {}
    else
      var rest := AllTargets(pos, side, legal, n - 1);
      if pos.pieces[side][n - 1].Some? then rest + Targets(pos, Id(side, n - 1), legal) else rest
  }

  // ---------------------------------------------------------------------
  // Lemmas about the targets
  // ---------------------------------------------------------------------

  /** Every square a generator visits is on the board. */
  lemma CandidatesOnBoard(pos: Position, p: Piece, t: Sq)
    requires Shaped(pos) && Generable(p) && t in Candidates(pos, p)
    ensures InBoard(t.x, t.y)
  {
    var g, x, y := pos.board, p.at.x, p.at.y;
    if p.kind == 'Q' || p.kind == 'R' || p.kind == 'B' {
      var dx, dy :| IsDirection(dx, dy) && t in Reached(g, x, y, dx, dy, 6);
      ReachedOnRay(g, x, y, dx, dy, 6, t);
    }
  }

  /** In attack mode a piece lists every square its generator visits. */
  lemma PseudoTargets(pos: Position, id: Id)
    requires Ready(pos, id, false)
    ensures Targets(pos, id, false) == Candidates(pos, PieceOf(pos, id))
  {
    forall t | t in Candidates(pos, PieceOf(pos, id))
      ensures t in Kept(pos, id, false)
    {
      CandidatesOnBoard(pos, PieceOf(pos, id), t);
      KeptIff(pos, id, false, t);
    }
  }

  /** In attack mode every slot lists what it attacks, so `getMoves(side, false)` lists the attacked squares. */
  lemma {:induction false} AllTargetsPseudo(pos: Position, side: int, n: nat)
    requires SideReady(pos, side, false) && n <= 16
    ensures AllTargets(pos, side, false, n) == Attacks(pos, side, n)
  {
    if n > 0 {
      AllTargetsPseudo(pos, side, n - 1);
      if pos.pieces[side][n - 1].Some? {
        PseudoTargets(pos, Id(side, n - 1));
      }
    }
  }

  /** In legal mode a piece never lists a tile holding its own team, and every listed move is safe. */
  lemma LegalNeverOwn(pos: Position, id: Id, t: Sq)
    requires Ready(pos, id, true) && t in Targets(pos, id, true)
    ensures InBoard(t.x, t.y) && TileCheck(pos, PieceOf(pos, id).team, t) != 0 && Safe(pos, id, t)
  {
    KeptIff(pos, id, true, t);
  }

  /** A pawn steps straight one square, or two from its start rank, and otherwise one diagonal square forward. */
  lemma PawnSquaresIff(p: Piece, t: Sq)
    requires p.kind == 'P' && InBoard(p.at.x, p.at.y)
    ensures t in PawnSquares(p) <==>
      (t == Sq(p.at.x, p.at.y + Dir(p.team))) ||
      (OnStartRank(p) && t == Sq(p.at.x, p.at.y + 2 * Dir(p.team))) ||
      ((t.x == p.at.x + 1 || t.x == p.at.x - 1) && 0 <= t.x < 8 && t.y == p.at.y + Dir(p.team))
  {
  }

  /** The double push is only ever considered from the start rank. */
  lemma PawnDoubleFromStart(pos: Position, p: Piece, t: Sq)
    requires Shaped(pos) && Generable(p) && p.kind == 'P'
    requires t in Candidates(pos, p) && t.x == p.at.x && t.y != p.at.y + Dir(p.team)
    ensures OnStartRank(p) && t.y == p.at.y + 2 * Dir(p.team)
  {
    PawnSquaresIff(p, t);
  }

  /** With legality checking on, a pawn goes diagonally only onto an enemy and straight only onto an empty tile. */
  lemma PawnLegalTiles(pos: Position, id: Id, t: Sq)
    requires Ready(pos, id, true) && PieceOf(pos, id).kind == 'P' && t in Targets(pos, id, true)
    ensures var p := PieceOf(pos, id);
      InBoard(t.x, t.y) &&
      (t.x != p.at.x ==> TileCheck(pos, p.team, t) == 1) &&
      (t.x == p.at.x ==> TileCheck(pos, p.team, t) == 2)
  {
    KeptIff(pos, id, true, t);
  }

  /**
   * A sliding ray of the queen, rook or bishop lists a square only if every
   * square before it is empty, and reaches at most six squares: a rook on
   * the a-file never reaches the h-file.
   */
  lemma SliderRange(pos: Position, p: Piece, t: Sq)
    requires Shaped(pos) && Generable(p) && (p.kind == 'Q' || p.kind == 'R' || p.kind == 'B')
    requires t in Candidates(pos, p)
    ensures exists dx, dy, k ::
      (IsDirection(dx, dy) && 1 <= k <= 6 && t == Step(p.at.x, p.at.y, dx, dy, k) &&
       InBoard(t.x, t.y) && Open(pos.board, p.at.x, p.at.y, dx, dy, k - 1))
    ensures -6 <= t.x - p.at.x <= 6 && -6 <= t.y - p.at.y <= 6
  {
    var g, x, y := pos.board, p.at.x, p.at.y;
    var dx, dy :| IsDirection(dx, dy) && t in Reached(g, x, y, dx, dy, 6);
    ReachedOnRay(g, x, y, dx, dy, 6, t);
  }

  /** The rook's lines and the bishop's diagonals. */
  lemma SliderLines(pos: Position, p: Piece, t: Sq)
    requires Shaped(pos) && Generable(p) && t in Candidates(pos, p)
    ensures p.kind == 'R' ==> t.x == p.at.x || t.y == p.at.y
    ensures p.kind == 'B' ==> t.x - p.at.x == t.y - p.at.y || t.x - p.at.x == p.at.y - t.y
  {
    if p.kind == 'R' || p.kind == 'B' {
      var g, x, y := pos.board, p.at.x, p.at.y;
      var dx, dy :| IsDirection(dx, dy) && (p.kind == 'R' ==> dx == 0 || dy == 0) &&
        (p.kind == 'B' ==> dx != 0 && dy != 0) && t in Reached(g, x, y, dx, dy, 6);
      ReachedOnRay(g, x, y, dx, dy, 6, t);
    }
  }

  // ---------------------------------------------------------------------
  // How the generator's loops build the targets
  // ---------------------------------------------------------------------

  /** The pawn's squares that lie in `k`, square by square in the source's order. */
  lemma PawnScan(p: Piece, k: set<Sq>)
    ensures var x, y, d := p.at.x, p.at.y, Dir(p.team);
      PawnSquares(p) * k ==
      {Sq(x, y + d)} * k +
      (if OnStartRank(p) then {Sq(x, y + 2 * d)} * k else {}) +
      (if x + 1 < 8 then {Sq(x + 1, y + d)} * k else {}) +
      (if x - 1 >= 0 then {Sq(x - 1, y + d)} * k else {})
  {
  }

  /**
   * The position after `movePiece`: the piece stands on `target` and its
   * origin is empty, the slot of the piece it captured is null, and no
   * other tile or slot changes.
   */
  /** `movePiece` can relocate `id` to `target`: the piece stands on the board, and a piece on `target` has a slot. */
  predicate Movable(pos: Position, id: Id, target: Sq) {
    Shaped(pos) && Live(pos, id) && InBoard(PieceOf(pos, id).at.x, PieceOf(pos, id).at.y) && InBoard(target.x, target.y) &&
    (pos.board[target.x][target.y].Some? ==> IsSlot(pos.board[target.x][target.y].value))
  }

  function Apply(pos: Position, id: Id, target: Sq): (r: Position)
    requires Movable(pos, id, target)
    ensures Shaped(r)
    ensures r.board[target.x][target.y] == Some(id) && r.pieces[id.side][id.index] == Some(PieceOf(pos, id).(at := target))
    ensures target != PieceOf(pos, id).at ==> r.board[PieceOf(pos, id).at.x][PieceOf(pos, id).at.y] == None
    ensures forall x, y | InBoard(x, y) && Sq(x, y) != target && Sq(x, y) != PieceOf(pos, id).at :: r.board[x][y] == pos.board[x][y]
    ensures forall s, i | 0 <= s < 2 && 0 <= i < 16 && Id(s, i) != id ::
      r.pieces[s][i] == if pos.board[target.x][target.y] == Some(Id(s, i)) then None else pos.pieces[s][i]
  {
    var p := PieceOf(pos, id);
    var occupant := pos.board[target.x][target.y];
    var ps := if occupant.Some? then SetSlot(pos.pieces, occupant.value, None) else pos.pieces;
    Position(SetCell(SetCell(pos.board, p.at.x, p.at.y, None), target.x, target.y, Some(id)),
             SetSlot(ps, id, Some(p.(at := target))))
  }

  /** A listed move never targets the piece's own tile: that tile holds its own team. */
  lemma TargetNotOrigin(pos: Position, id: Id, t: Sq)
    requires Ready(pos, id, true) && t in Targets(pos, id, true)
    ensures t != PieceOf(pos, id).at
  {
    KeptIff(pos, id, true, t);
  }

  /** A move to another tile keeps every link between tiles and pieces consistent. */
  lemma ApplyValid(pos: Position, id: Id, target: Sq)
    requires Valid(pos) && Movable(pos, id, target) && target != PieceOf(pos, id).at
    ensures Valid(Apply(pos, id, target))
  {
    var r := Apply(pos, id, target);
    var p := PieceOf(pos, id);
    forall x, y | InBoard(x, y) && r.board[x][y].Some?
      ensures Live(r, r.board[x][y].value) && PieceOf(r, r.board[x][y].value).at == Sq(x, y)
    {
      if Sq(x, y) != target {
        var o := pos.board[x][y].value;
        assert PieceOf(pos, o).at == Sq(x, y);
        assert o != id;
      }
    }
    forall s, i | 0 <= s < 2 && 0 <= i < 16 && r.pieces[s][i].Some?
      ensures r.pieces[s][i].value.team == s && InBoard(r.pieces[s][i].value.at.x, r.pieces[s][i].value.at.y)
      ensures r.board[r.pieces[s][i].value.at.x][r.pieces[s][i].value.at.y] == Some(Id(s, i))
    {
      if Id(s, i) != id {
        var q := pos.pieces[s][i].value;
        assert pos.board[q.at.x][q.at.y] == Some(Id(s, i));
        assert q.at != target;
      }
    }
  }

  // ---------------------------------------------------------------------
  // The start position
  // ---------------------------------------------------------------------

  function HomeRow(side: int): int {
    if side == 0 then 0 else 7
  }

  function PawnRow(side: int): int {
    if side == 0 then 1 else 6
  }

  /** The piece `Game()` creates in slot `i` of `side`: R N B Q K B N R in slots 0-7, pawns in slots 8-15. */
  function StartPiece(side: int, i: int): Piece {
    if 0 <= i < 8 then Piece(BackRank[i], side, Sq(i, HomeRow(side))) else Piece('P', side, Sq(i - 8, PawnRow(side)))
  }

  /** The piece the tile at (x, y) points at after `Game()`. */
  function StartCell(x: int, y: int): Option<Id> {
    if y == 0 then Some(Id(0, x))
    else if y == 1 then Some(Id(0, 8 + x))
    else if y == 6 then Some(Id(1, 8 + x))
    else if y == 7 then Some(Id(1, x))
    else None
  }

  function Start(): Position {
    Position(seq(8, x => seq(8, y => StartCell(x, y))), seq(2, s => seq(16, i => Some(StartPiece(s, i)))))
  }

  /** Every tile of the start position points at a piece standing on it, and every piece's tile points back. */
  lemma StartValid()
    ensures Valid(Start())
  {
    var pos := Start();
    assert Shaped(pos);
    forall x, y | InBoard(x, y) && pos.board[x][y].Some?
      ensures Live(pos, pos.board[x][y].value) && PieceOf(pos, pos.board[x][y].value).at == Sq(x, y)
    {
      assert y in {0, 1, 6, 7};
    }
  }

  /**
   * The start position holds sixteen pieces per side; the king sits in
   * slot 4 on the e-file of its back rank, and the pawns of slots 8-15 fill
   * rank 2 (white) or rank 7 (black).
   */
  lemma StartLayout(s: int, i: int)
    requires 0 <= s < 2 && 0 <= i < 16
    ensures Start().pieces[s][i].Some? && Start().pieces[s][i].value.team == s
    ensures i == 4 ==> Start().pieces[s][i].value == Piece('K', s, Sq(4, if s == 0 then 0 else 7))
    ensures i >= 8 ==> Start().pieces[s][i].value == Piece('P', s, Sq(i - 8, if s == 0 then 1 else 6))
    ensures forall x, y | InBoard(x, y) && 2 <= y < 6 :: Start().board[x][y] == None
  {
  }

  function Level(legal: bool): nat {
    if legal then 2 else 0
  }

  // ---------------------------------------------------------------------
  // Typed moves: the decomposition of a move in Standard Algebraic Notation
  // ---------------------------------------------------------------------

  predicate IsPieceLetter(c: char) {
    c == 'K' || c == 'Q' || c == 'N' || c == 'B' || c == 'R'
  }

  /** A disambiguating file or rank after the piece letter. */
  predicate IsHint(c: char) {
    IsFile(c) || IsRank(c)
  }

  /** The typed text without one final '+': every pattern allows a '+' just before the end. */
  function Unchecked(s: string): (r: string)
    ensures r <= s && |s| - 1 <= |r|
  {
    if |s| > 0 && s[|s| - 1] == '+' then s[..|s| - 1] else s
  }

  /** A pawn push such as `e4`: a file and a rank, then an optional '+'. */
  predicate PawnMoveText(s: string) {
    var t := Unchecked(s);
    |t| == 2 && IsFile(t[0]) && IsRank(t[1])
  }

  /** A pawn capture such as `exd5`: a file, 'x', a file and a rank, then an optional '+'. */
  predicate PawnCaptureText(s: string) {
    var t := Unchecked(s);
    |t| == 4 && IsFile(t[0]) && t[1] == 'x' && IsFile(t[2]) && IsRank(t[3])
  }

  /** A piece move such as `Nbxd7+`: a piece letter, an optional hint, an optional 'x', a file and a rank, then an optional '+'. */
  predicate PieceMoveText(s: string) {
    var t := Unchecked(s);
    3 <= |t| <= 5 && IsPieceLetter(t[0]) && IsFile(t[|t| - 2]) && IsRank(t[|t| - 1]) &&
    (|t| == 4 ==> IsHint(t[1]) || t[1] == 'x') &&
    (|t| == 5 ==> IsHint(t[1]) && t[2] == 'x')
  }

  /** What `update` takes from a typed move: the piece text (a pawn's file, or a letter and its hint) and the target square's name. */
  datatype Typed = Typed(piece: string, move: string)

  /**
   * The decomposition in `update`: a pawn push gives its file and its
   * square; a pawn capture its file and the square after the 'x'; a piece
   * move the text before the optional 'x' and the two characters before
   * the optional '+'. Any other text gives nothing, and `update` asks again.
   */
  function Decompose(input: string): (r: Option<Typed>)
    ensures r.Some? <==> PawnMoveText(input) || PawnCaptureText(input) || PieceMoveText(input)
    ensures r.Some? ==> |r.value.move| == 2 && InBoard(SquareAt(r.value.move, 0).x, SquareAt(r.value.move, 0).y)
    ensures r.Some? ==> 1 <= |r.value.piece| <= 2 && r.value.piece[0] == input[0]
  {
    if PawnMoveText(input) then
      Some(Typed(input[..1], input[..2]))
    else if PawnCaptureText(input) then
      assert input[2..4] == Unchecked(input)[2..4];
      Some(Typed(input[..1], input[2..4]))
    else if PieceMoveText(input) then
      var check := if |input| > 0 && input[|input| - 1] == '+' then 1 else 0;
      var capture := if 'x' in input then 1 else 0;
      var t := Unchecked(input);
      assert |t| == |input| - check && input[|input| - check - 2..|input| - check] == t[|t| - 2..];
      Some(Typed(input[..|input| - check - capture - 2], input[|input| - check - 2..|input| - check]))
    else
      None
  }

  /** How a player types a piece move: letter, optional hint, optional 'x', target square, optional '+'. */
  function PieceText(letter: char, hint: Option<char>, capture: bool, target: Sq, check: bool): string
    requires InBoard(target.x, target.y)
  {
    [letter] + (if hint.Some? then [hint.value] else []) + (if capture then "x" else "") +
    SquareName(target) + (if check then "+" else "")
  }

  /** Every typed piece move decomposes into its letter with its hint, and the target square's name. */
  lemma DecomposePieceText(letter: char, hint: Option<char>, capture: bool, target: Sq, check: bool)
    requires IsPieceLetter(letter) && (hint.Some? ==> IsHint(hint.value)) && InBoard(target.x, target.y)
    ensures Decompose(PieceText(letter, hint, capture, target, check)) ==
      Some(Typed([letter] + (if hint.Some? then [hint.value] else []), SquareName(target)))
  {
    var s := PieceText(letter, hint, capture, target, check);
    var body := [letter] + (if hint.Some? then [hint.value] else []) + (if capture then "x" else "") + SquareName(target);
    assert s == body + (if check then "+" else "");
    assert Unchecked(s) == body;
    var head := [letter] + (if hint.Some? then [hint.value] else []);
    assert ('x' in s) == capture by {
      assert forall i | 0 <= i < |s| :: s[i] == 'x' <==> capture && i == |head|;
    }
    assert !PawnMoveText(s) && !PawnCaptureText(s) && PieceMoveText(s);
    var c := if check then 1 else 0;
    var x := if capture then 1 else 0;
    assert |s| == |head| + x + 2 + c;
    assert s[..|s| - c - x - 2] == head;
    assert s[|s| - c - 2..|s| - c] == SquareName(target);
  }

  /** A typed pawn push decomposes into its file and its square. */
  lemma DecomposePawnMove(target: Sq, check: bool)
    requires InBoard(target.x, target.y)
    ensures Decompose(SquareName(target) + (if check then "+" else "")) ==
      Some(Typed(SquareName(target)[..1], SquareName(target)))
  {
    var s := SquareName(target) + (if check then "+" else "");
    assert Unchecked(s) == SquareName(target);
    assert PawnMoveText(s);
    assert s[..2] == SquareName(target);
    assert s[..1] == SquareName(target)[..1];
  }

  /** A typed pawn capture decomposes into the capturing file and the target square. */
  lemma DecomposePawnCapture(file: char, target: Sq, check: bool)
    requires IsFile(file) && InBoard(target.x, target.y)
    ensures Decompose([file, 'x'] + SquareName(target) + (if check then "+" else "")) ==
      Some(Typed([file], SquareName(target)))
  {
    var s := [file, 'x'] + SquareName(target) + (if check then "+" else "");
    assert Unchecked(s) == [file, 'x'] + SquareName(target);
    assert !PawnMoveText(s) && PawnCaptureText(s);
    assert s[..1] == [file];
    assert s[2..4] == SquareName(target);
  }

  /**
   * What `update` rejects: castling (any text starting with 'O'), any text
   * whose last character before the optional '+' is not a rank digit (so a
   * square off the board), and any text ending in a doubled '+'.
   */
  lemma DecomposeRejects(s: string)
    ensures |s| > 0 && s[0] == 'O' ==> Decompose(s) == None
    ensures (|Unchecked(s)| == 0 || !IsRank(Unchecked(s)[|Unchecked(s)| - 1])) ==> Decompose(s) == None
    ensures |s| >= 2 && s[|s| - 2..] == "++" ==> Decompose(s) == None
  {
    var t := Unchecked(s);
    if |s| > 0 && s[0] == 'O' && |t| > 0 {
      assert t[0] == s[0];
    }
    if |s| >= 2 && s[|s| - 2..] == "++" {
      assert t == s[..|s| - 1] && t[|t| - 1] == s[|s| - 2] == '+';
    }
  }

  class Game {
    var turn: nat
    var board: seq<seq<Option<Id>>>
    var pieces: seq<seq<Option<Piece>>>
    var moveList: seq<string>

    function Pos(): Position
      reads this
    {
      Position(board, pieces)
    }

    /** Game(): 64 empty tiles, then the back ranks in slots 0-7 and the pawns in slots 8-15, each tile pointing at its piece. */
    constructor ()
      ensures turn == 0 && moveList == [] && Pos() == Start()
    {
      turn := 0;
      moveList := [];
      board := seq(8, i => seq(8, k => None));
      pieces := [seq(16, i => None), seq(16, i => None)];
      new;
      for i := 0 to 8
        invariant Shaped(Pos()) && board == seq(8, i => seq(8, k => None)) && turn == 0 && moveList == []
        invariant forall s, j | 0 <= s < 2 && 0 <= j < 16 :: pieces[s][j] == if j < i then Some(StartPiece(s, j)) else None
      {
        pieces := SetSlot(pieces, Id(0, i), Some(Piece(BackRank[i], 0, Sq(i, 0))));
        pieces := SetSlot(pieces, Id(1, i), Some(Piece(BackRank[i], 1, Sq(i, 7))));
      }
      PlacePawns();
    }

    /** The pawn loop of `Game()`: slots 8-15 and both back-rank tiles and pawn tiles of each file. */
    method PlacePawns()
      requires Shaped(Pos()) && board == seq(8, i => seq(8, k => None))
      requires forall s, j | 0 <= s < 2 && 0 <= j < 16 :: pieces[s][j] == if j < 8 then Some(StartPiece(s, j)) else None
      modifies this
      ensures Pos() == Start() && turn == old(turn) && moveList == old(moveList)
    {
      for i := 0 to 8
        invariant Shaped(Pos()) && turn == old(turn) && moveList == old(moveList)
        invariant forall s, j | 0 <= s < 2 && 0 <= j < 16 :: pieces[s][j] == if j < 8 + i then Some(StartPiece(s, j)) else None
        invariant forall x, y | InBoard(x, y) :: board[x][y] == if x < i then StartCell(x, y) else None
      {
        pieces := SetSlot(pieces, Id(0, 8 + i), Some(Piece('P', 0, Sq(i, 1))));
        pieces := SetSlot(pieces, Id(1, 8 + i), Some(Piece('P', 1, Sq(i, 6))));
        board := SetCell(board, i, 0, Some(Id(0, i)));
        board := SetCell(board, i, 1, Some(Id(0, 8 + i)));
        board := SetCell(board, i, 6, Some(Id(1, 8 + i)));
        board := SetCell(board, i, 7, Some(Id(1, i)));
      }
      forall x | 0 <= x < 8
        ensures board[x] == Start().board[x]
      {
        assert forall y | 0 <= y < 8 :: board[x][y] == Start().board[x][y];
      }
      forall s | 0 <= s < 2
        ensures pieces[s] == Start().pieces[s]
      {
        assert forall j | 0 <= j < 16 :: pieces[s][j] == Start().pieces[s][j];
      }
    }

    /**
     * movePiece: refused, with nothing changed, unless `target` is among the
     * piece's legal moves; otherwise a piece on `target` is found by scanning
     * slots 0, 1, ... of the array of side `(turn + 1) % 2` and its slot is
     * nulled, and the piece moves to `target`.
     */
    method MovePiece(id: Id, target: Sq) returns (ok: bool)
      requires Ready(Pos(), id, true) && InBoard(target.x, target.y)
      requires target in Targets(Pos(), id, true) && board[target.x][target.y].Some? ==>
        board[target.x][target.y].value.side == (turn + 1) % 2
      modifies this
      ensures ok <==> target in Targets(old(Pos()), id, true)
      ensures !ok ==> unchanged(this)
      ensures ok ==> Pos() == Apply(old(Pos()), id, target) && turn == old(turn) && moveList == old(moveList)
    {
      var ms := PieceMoves(id, true);
      SquaresIn(ms, target);
      if target !in ms {
        return false;
      }
      TargetNotOrigin(Pos(), id, target);
      Relocate(id, target);
      ok := true;
    }

    /** The capture scan and the relocation of a move `movePiece` accepted. */
    method Relocate(id: Id, target: Sq)
      requires Movable(Pos(), id, target)
      requires board[target.x][target.y].Some? ==> board[target.x][target.y].value.side == (turn + 1) % 2
      modifies this
      ensures Pos() == Apply(old(Pos()), id, target) && turn == old(turn) && moveList == old(moveList)
    {
      var piece := pieces[id.side][id.index].value;
      var occupant := board[target.x][target.y];
      if occupant.Some? {
        var side := (turn + 1) % 2;
        var i := 0;
        while i <= 16
          invariant 0 <= i <= occupant.value.index
          invariant pieces == old(pieces)
          decreases 16 - i
        {
          if Id(side, i) == occupant.value {
            pieces := SetSlot(pieces, Id(side, i), None);
            break;
          }
          i := i + 1;
        }
      }
      board := SetCell(board, piece.at.x, piece.at.y, None);
      pieces := SetSlot(pieces, id, Some(piece.(at := target)));
      board := SetCell(board, target.x, target.y, Some(id));
    }

    /** checkMate: the side to move is in check, and only then is it asked for its legal moves, of which it has none. */
    method CheckMate() returns (r: bool)
      requires SideReady(Pos(), turn % 2, true)
      modifies this
      ensures unchanged(this)
      ensures r <==> InCheck(Pos(), turn % 2) && AllTargets(Pos(), turn % 2, true, 16) == {}
    {
      r := CheckCheck(turn % 2);
      if r {
        var moves := GetMoves(turn % 2, true);
        SquaresEmpty(moves);
        r := |moves| == 0;
      }
    }

    /** moveCheck: try the move, ask whether the mover's king is attacked, and undo the trial. */
    method MoveCheck(id: Id, t: Sq) returns (ok: bool)
      requires Valid(Pos()) && Live(Pos(), id) && InBoard(t.x, t.y) && KingReady(Pos(), PieceOf(Pos(), id).team)
      modifies this
      decreases 1, 1
      ensures unchanged(this)
      ensures ok == Safe(Pos(), id, t)
    {
      var p := pieces[id.side][id.index].value;
      var originalTile := p.at;
      var originalPiece := board[t.x][t.y];
      board := SetCell(board, originalTile.x, originalTile.y, None);
      pieces := SetSlot(pieces, id, Some(p.(at := t)));
      board := SetCell(board, t.x, t.y, Some(id));
      assert Pos() == Trial(old(Pos()), id, t);
      var r := CheckCheck(p.team);
      pieces := SetSlot(pieces, id, Some(p));
      board := SetCell(board, originalTile.x, originalTile.y, Some(id));
      board := SetCell(board, t.x, t.y, originalPiece);
      SetCellRestore(old(board), originalTile, t, None, Some(id));
      SetSlotRestore(old(pieces), id, Some(p.(at := t)));
      ok := !r;
    }

    /** checkCheck: the opponent's attack-mode list contains the tile of the piece in slot 4. */
    method CheckCheck(team: int) returns (r: bool)
      requires Linked(Pos()) && KingReady(Pos(), team)
      modifies this
      decreases 1, 0
      ensures unchanged(this)
      ensures r == InCheck(Pos(), team)
    {
      var moves := GetMoves(Opponent(team), false);
      AllTargetsPseudo(Pos(), Opponent(team), 16);
      SquaresIn(moves, pieces[team][4].value.at);
      r := pieces[team][4].value.at in moves;
    }

    /** getMoves(team, legal): the lists of every non-null piece of `team`, concatenated. */
    method GetMoves(team: int, legal: bool) returns (moves: seq<Sq>)
      requires SideReady(Pos(), team, legal)
      modifies this
      decreases Level(legal), 6
      ensures unchanged(this)
      ensures Squares(moves) == AllTargets(Pos(), team, legal, 16)
    {
      moves := [];
      for i := 0 to 16
        invariant unchanged(this)
        invariant Squares(moves) == AllTargets(Pos(), team, legal, i)
      {
        if pieces[team][i].Some? {
          var ms := PieceMoves(Id(team, i), legal);
          SquaresAppend(moves, ms);
          moves := moves + ms;
        }
      }
    }

    /** Piece.getMoves(checkLegality): the tiles the piece in slot `id` lists. */
    method PieceMoves(id: Id, legal: bool) returns (ts: seq<Sq>)
      requires Ready(Pos(), id, legal)
      modifies this
      decreases Level(legal), 5
      ensures unchanged(this)
      ensures Squares(ts) == Targets(Pos(), id, legal)
    {
      var p := pieces[id.side][id.index].value;
      ghost var pos := Pos();
      ghost var k := Kept(pos, id, legal);
      match p.kind
      case 'K' =>
        ts := KingMoves(id, p, legal, pos, k);
      case 'Q' =>
        ts := QueenMoves(id, p, legal, pos, k);
      case 'R' =>
        ts := RookMoves(id, p, legal, pos, k);
      case 'B' =>
        ts := BishopMoves(id, p, legal, pos, k);
      case 'N' =>
        ts := KnightMoves(id, p, legal, pos, k);
      case 'P' =>
        ts := PawnMoves(id, p, legal, pos, k);
      case _ =>
        ts := [];
    }

    /** One visited tile of the king or the knight: listed in attack mode, or when not own and safe. */
    method Visit(id: Id, p: Piece, legal: bool, ghost pos: Position, ghost k: set<Sq>, x: int, y: int, ts: seq<Sq>) returns (ts': seq<Sq>)
      requires Pos() == pos && pos in ReadyFor(id, legal) && pos.pieces[id.side][id.index] == Some(p) && p.kind != 'P' && InBoard(x, y)
      requires k == Kept(pos, id, legal)
      modifies this
      decreases Level(legal), 1
      ensures unchanged(this)
      ensures Squares(ts') == Squares(ts) + Jump(x, y) * k
    {
      var t := Sq(x, y);
      var ok := true;
      if legal {
        ok := MoveCheck(id, t);
      }
      KeptIff(pos, id, legal, t);
      ts' := ts;
      if !legal || (TileCheck(Pos(), p.team, t) != 0 && ok) {
        SquaresSnoc(ts, t);
        ts' := ts + [t];
      }
    }

    /** One visited tile of a pawn: `want` is 2 (empty) straight ahead and 1 (enemy) on a diagonal. */
    method PawnVisit(id: Id, p: Piece, legal: bool, ghost pos: Position, ghost k: set<Sq>, t: Sq, want: int, ts: seq<Sq>) returns (ts': seq<Sq>)
      requires Pos() == pos && pos in ReadyFor(id, legal) && pos.pieces[id.side][id.index] == Some(p) && p.kind == 'P' && InBoard(t.x, t.y)
      requires k == Kept(pos, id, legal)
      requires want == if t.x == p.at.x then 2 else 1
      modifies this
      decreases Level(legal), 1
      ensures unchanged(this)
      ensures Squares(ts') == Squares(ts) + {t} * k
    {
      var ok := true;
      if legal {
        ok := MoveCheck(id, t);
      }
      KeptIff(pos, id, legal, t);
      ts' := ts;
      if !legal || (TileCheck(Pos(), p.team, t) == want && ok) {
        SquaresSnoc(ts, t);
        ts' := ts + [t];
      }
    }

    /**
     * Step `i` of one ray: when the square is on the board and the ray's bit
     * is set, an occupied square subtracts the bit, and the square is listed
     * in attack mode, or in legal mode when not own and safe.
     */
    method Probe(id: Id, p: Piece, legal: bool, ghost pos: Position, ghost k: set<Sq>, dx: int, dy: int, bit: int, i: nat,
                 control: set<int>, ts: seq<Sq>)
      returns (control': set<int>, ts': seq<Sq>)
      requires Pos() == pos && pos in ReadyFor(id, legal) && pos.pieces[id.side][id.index] == Some(p) && p.kind != 'P'
      requires k == Kept(pos, id, legal)
      modifies this
      decreases Level(legal), 2
      ensures unchanged(this)
      ensures Probes(pos.board, p.at.x, p.at.y, dx, dy, bit, i, control, control')
      ensures Squares(ts') == Squares(ts) + Seen(p.at.x, p.at.y, dx, dy, bit, i, control) * k
    {
      control', ts' := control, ts;
      var x, y := Walk(p.at.x, dx, i), Walk(p.at.y, dy, i);
      if 0 <= x < 8 && 0 <= y < 8 && bit in control {
        var tc := TileCheck(Pos(), p.team, Sq(x, y));
        if tc != 2 {
          control' := control - {bit};
        }
        ts' := Visit(id, p, legal, pos, k, x, y, ts);
      }
    }

    method KingMoves(id: Id, p: Piece, legal: bool, ghost pos: Position, ghost k: set<Sq>) returns (ts: seq<Sq>)
      requires Pos() == pos && pos in ReadyFor(id, legal) && pos.pieces[id.side][id.index] == Some(p) && p.kind == 'K'
      requires k == Kept(pos, id, legal)
      modifies this
      decreases Level(legal), 4
      ensures unchanged(this)
      ensures Squares(ts) == KingSquares(p.at.x, p.at.y) * k
    {
      ts := [];
      for i := Max(0, p.at.x - 1) to Min(p.at.x + 1, 7) + 1
        invariant unchanged(this)
        invariant Squares(ts) == KingColumns(p.at.x, p.at.y, i, k)
      {
        ts := KingRow(id, p, legal, pos, k, i, ts);
      }
      KingScan(p.at.x, p.at.y, k);
    }

    /** The inner king loop over the rows of column `i`, skipping the king's own square. */
    method KingRow(id: Id, p: Piece, legal: bool, ghost pos: Position, ghost k: set<Sq>, i: int, ts: seq<Sq>) returns (ts': seq<Sq>)
      requires Pos() == pos && pos in ReadyFor(id, legal) && pos.pieces[id.side][id.index] == Some(p) && p.kind == 'K'
      requires k == Kept(pos, id, legal)
      requires Max(0, p.at.x - 1) <= i <= Min(p.at.x + 1, 7)
      modifies this
      decreases Level(legal), 3
      ensures unchanged(this)
      ensures Squares(ts') == Squares(ts) + KingColumn(p.at.x, p.at.y, i, Min(p.at.y + 1, 7) + 1, k)
    {
      ts' := ts;
      for j := Max(0, p.at.y - 1) to Min(p.at.y + 1, 7) + 1
        invariant unchanged(this)
        invariant Squares(ts') == Squares(ts) + KingColumn(p.at.x, p.at.y, i, j, k)
      {
        if !(i == p.at.x && j == p.at.y) {
          ts' := Visit(id, p, legal, pos, k, i, j, ts');
        }
      }
    }

    method QueenMoves(id: Id, p: Piece, legal: bool, ghost pos: Position, ghost k: set<Sq>) returns (ts: seq<Sq>)
      requires Pos() == pos && pos in ReadyFor(id, legal) && pos.pieces[id.side][id.index] == Some(p) && p.kind == 'Q'
      requires k == Kept(pos, id, legal)
      modifies this
      decreases Level(legal), 4
      ensures unchanged(this)
      ensures Squares(ts) == QueenReach(pos.board, p.at.x, p.at.y, 6) * k
    {
      var control := AllBits;
      ts := [];
      AllBitsOpen(pos.board, p.at.x, p.at.y);
      for i := 1 to 7
        invariant unchanged(this)
        invariant control in QueenControl(pos.board, p.at.x, p.at.y, i - 1)
        invariant Squares(ts) == QueenReach(pos.board, p.at.x, p.at.y, i - 1) * k
      {
        control, ts := QueenIteration(id, p, legal, pos, k, i, control, ts);
      }
    }

    /** One iteration of the queen loop, its eight probes in the source's order. */
    method QueenIteration(id: Id, p: Piece, legal: bool, ghost pos: Position, ghost k: set<Sq>, i: nat, control: set<int>, ts: seq<Sq>)
      returns (control': set<int>, ts': seq<Sq>)
      requires Pos() == pos && pos in ReadyFor(id, legal) && pos.pieces[id.side][id.index] == Some(p) && p.kind == 'Q' && i >= 1
      requires k == Kept(pos, id, legal)
      requires control in QueenControl(pos.board, p.at.x, p.at.y, i - 1)
      requires Squares(ts) == QueenReach(pos.board, p.at.x, p.at.y, i - 1) * k
      modifies this
      decreases Level(legal), 3
      ensures unchanged(this)
      ensures control' in QueenControl(pos.board, p.at.x, p.at.y, i)
      ensures Squares(ts') == QueenReach(pos.board, p.at.x, p.at.y, i) * k
    {
      ghost var c0, a := control, Squares(ts);
      control', ts' := control, ts;
      control', ts' := Probe(id, p, legal, pos, k, 1, 0, 0x01, i, control', ts');
      ghost var c1 := control';
      control', ts' := Probe(id, p, legal, pos, k, 1, 1, 0x80, i, control', ts');
      ghost var c2 := control';
      control', ts' := Probe(id, p, legal, pos, k, 1, -1, 0x40, i, control', ts');
      ghost var c3 := control';
      control', ts' := Probe(id, p, legal, pos, k, -1, 0, 0x02, i, control', ts');
      ghost var c4 := control';
      control', ts' := Probe(id, p, legal, pos, k, -1, 1, 0x20, i, control', ts');
      ghost var c5 := control';
      control', ts' := Probe(id, p, legal, pos, k, -1, -1, 0x10, i, control', ts');
      ghost var c6 := control';
      control', ts' := Probe(id, p, legal, pos, k, 0, 1, 0x04, i, control', ts');
      ghost var c7 := control';
      control', ts' := Probe(id, p, legal, pos, k, 0, -1, 0x08, i, control', ts');
      ghost var c8 := control';
      QueenRound(pos.board, p.at.x, p.at.y, i, k, a, c0, c1, c2, c3, c4, c5, c6, c7, c8);
    }

    method RookMoves(id: Id, p: Piece, legal: bool, ghost pos: Position, ghost k: set<Sq>) returns (ts: seq<Sq>)
      requires Pos() == pos && pos in ReadyFor(id, legal) && pos.pieces[id.side][id.index] == Some(p) && p.kind == 'R'
      requires k == Kept(pos, id, legal)
      modifies this
      decreases Level(legal), 4
      ensures unchanged(this)
      ensures Squares(ts) == LineReach(pos.board, p.at.x, p.at.y, 6) * k
    {
      var control := AllBits;
      ts := [];
      AllBitsOpen(pos.board, p.at.x, p.at.y);
      for i := 1 to 7
        invariant unchanged(this)
        invariant LineFlags(pos.board, p.at.x, p.at.y, i - 1, control)
        invariant Squares(ts) == LineReach(pos.board, p.at.x, p.at.y, i - 1) * k
      {
        ghost var c0, a := control, Squares(ts);
        control, ts := Probe(id, p, legal, pos, k, 1, 0, 0x01, i, control, ts);
        ghost var c1 := control;
        control, ts := Probe(id, p, legal, pos, k, -1, 0, 0x02, i, control, ts);
        ghost var c2 := control;
        control, ts := Probe(id, p, legal, pos, k, 0, 1, 0x04, i, control, ts);
        ghost var c3 := control;
        control, ts := Probe(id, p, legal, pos, k, 0, -1, 0x08, i, control, ts);
        ghost var c4 := control;
        LineRound(pos.board, p.at.x, p.at.y, i, k, a, c0, c1, c2, c3, c4);
      }
    }

    method BishopMoves(id: Id, p: Piece, legal: bool, ghost pos: Position, ghost k: set<Sq>) returns (ts: seq<Sq>)
      requires Pos() == pos && pos in ReadyFor(id, legal) && pos.pieces[id.side][id.index] == Some(p) && p.kind == 'B'
      requires k == Kept(pos, id, legal)
      modifies this
      decreases Level(legal), 4
      ensures unchanged(this)
      ensures Squares(ts) == DiagonalReach(pos.board, p.at.x, p.at.y, 6) * k
    {
      var control := AllBits;
      ts := [];
      AllBitsOpen(pos.board, p.at.x, p.at.y);
      for i := 1 to 7
        invariant unchanged(this)
        invariant DiagonalFlags(pos.board, p.at.x, p.at.y, i - 1, control)
        invariant Squares(ts) == DiagonalReach(pos.board, p.at.x, p.at.y, i - 1) * k
      {
        ghost var c0, a := control, Squares(ts);
        control, ts := Probe(id, p, legal, pos, k, 1, 1, 0x80, i, control, ts);
        ghost var c1 := control;
        control, ts := Probe(id, p, legal, pos, k, 1, -1, 0x40, i, control, ts);
        ghost var c2 := control;
        control, ts := Probe(id, p, legal, pos, k, -1, 1, 0x20, i, control, ts);
        ghost var c3 := control;
        control, ts := Probe(id, p, legal, pos, k, -1, -1, 0x10, i, control, ts);
        ghost var c4 := control;
        DiagonalRound(pos.board, p.at.x, p.at.y, i, k, a, c0, c1, c2, c3, c4);
      }
    }

    /** The eight jumps in the source's order; the last pair is guarded by `x - 1 < 8`, as written. */
    method KnightMoves(id: Id, p: Piece, legal: bool, ghost pos: Position, ghost k: set<Sq>) returns (ts: seq<Sq>)
      requires Pos() == pos && pos in ReadyFor(id, legal) && pos.pieces[id.side][id.index] == Some(p) && p.kind == 'N'
      requires k == Kept(pos, id, legal)
      modifies this
      decreases Level(legal), 4
      ensures unchanged(this)
      ensures Squares(ts) == KnightJumps(p.at.x, p.at.y) * k
    {
      ts := KnightTwo(id, p, legal, pos, k, p.at.x + 2 < 8, p.at.x - 2 >= 0, 0, []);
      ts := KnightTwo(id, p, legal, pos, k, p.at.x + 1 < 8, p.at.x - 1 < 8, 2, ts);
      KnightScan(p.at.x, p.at.y, k);
    }

    /** The knight's columns `n` and `n + 1`, each under its own guard. */
    method KnightTwo(id: Id, p: Piece, legal: bool, ghost pos: Position, ghost k: set<Sq>, guard: bool, guard': bool, n: nat, ts: seq<Sq>)
      returns (ts': seq<Sq>)
      requires Pos() == pos && pos in ReadyFor(id, legal) && pos.pieces[id.side][id.index] == Some(p) && p.kind == 'N'
      requires k == Kept(pos, id, legal)
      requires guard <==> 0 <= p.at.x + KnightDx(n) < 8
      requires guard' <==> 0 <= p.at.x + KnightDx(n + 1) < 8
      requires Squares(ts) == KnightChain(p.at.x, p.at.y, n, k)
      modifies this
      decreases Level(legal), 3
      ensures unchanged(this)
      ensures Squares(ts') == KnightChain(p.at.x, p.at.y, n + 2, k)
    {
      ts' := KnightPair(id, p, legal, pos, k, guard, n, ts);
      ts' := KnightPair(id, p, legal, pos, k, guard', n + 1, ts');
    }

    /** The jumps into the knight's column `n` when `guard` holds: rows y + dy, then y - dy, each when on the board. */
    method KnightPair(id: Id, p: Piece, legal: bool, ghost pos: Position, ghost k: set<Sq>, guard: bool, n: nat, ts: seq<Sq>)
      returns (ts': seq<Sq>)
      requires Pos() == pos && pos in ReadyFor(id, legal) && pos.pieces[id.side][id.index] == Some(p) && p.kind == 'N'
      requires k == Kept(pos, id, legal)
      requires guard <==> 0 <= p.at.x + KnightDx(n) < 8
      modifies this
      decreases Level(legal), 2
      ensures unchanged(this)
      ensures Squares(ts') == Squares(ts) + KnightColumn(p.at.x, p.at.y, n, k)
    {
      var nx, y, dy := p.at.x + KnightDx(n), p.at.y, KnightDy(n);
      ts' := ts;
      if guard {
        if y + dy < 8 {
          ts' := Visit(id, p, legal, pos, k, nx, y + dy, ts');
        }
        if y - dy >= 0 {
          ts' := Visit(id, p, legal, pos, k, nx, y - dy, ts');
        }
      }
    }

    /** Straight ahead, two ahead from the start rank, then the diagonals x+1 and x-1. */
    method PawnMoves(id: Id, p: Piece, legal: bool, ghost pos: Position, ghost k: set<Sq>) returns (ts: seq<Sq>)
      requires Pos() == pos && pos in ReadyFor(id, legal) && pos.pieces[id.side][id.index] == Some(p) && p.kind == 'P'
      requires k == Kept(pos, id, legal)
      modifies this
      decreases Level(legal), 4
      ensures unchanged(this)
      ensures Squares(ts) == PawnSquares(p) * k
    {
      var x, y := p.at.x, p.at.y;
      var direction := if p.team == 0 then 1 else -1;
      ts := PawnVisit(id, p, legal, pos, k, Sq(x, y + 1 * direction), 2, []);
      if (p.team == 0 && y == 1) || (p.team == 1 && y == 6) {
        ts := PawnVisit(id, p, legal, pos, k, Sq(x, y + 2 * direction), 2, ts);
      }
      if x + 1 < 8 {
        ts := PawnVisit(id, p, legal, pos, k, Sq(x + 1, y + 1 * direction), 1, ts);
      }
      if x - 1 >= 0 {
        ts := PawnVisit(id, p, legal, pos, k, Sq(x - 1, y + 1 * direction), 1, ts);
      }
      PawnScan(p, k);
    }
  }
}
