/**
 * The revision of the game in ChessEngine/ChessGame.cs. It keeps the tiles
 * and the two arrays of sixteen nullable pieces of the earlier revision and
 * its trial-move legality test, and adds the `moved` flag, castling, en
 * passant, promotion and a move record in Standard Algebraic Notation with
 * disambiguation.
 *
 * Model. As in the earlier revision a tile is its square, a piece object is
 * named by the slot `Id(side, index)` it was created in, and a tile holds the
 * `Id` of the piece it points at; the values a piece carries are the record
 * `Piece`. The one thing move generation reads besides the board is the
 * en-passant test on the game's flag and last recorded move, which the
 * position carries as a `Passant` reading.
 */
module EngineGame {
  import opened Geometry
  import TrialGame
  import Fen

  /** A piece: its type letter, its team (0 moves first), the square of its tile and whether it has moved. */
  datatype Piece = Piece(kind: char, team: int, at: Sq, moved: bool)

  /** The identity of a piece object: the slot `pieces[side][index]` it was created in. */
  datatype Id = Id(side: int, index: int)

  /**
   * What the pawn's diagonal test reads of the game: nothing while the
   * en-passant flag is down (`Off`), else the file named by the first
   * character of the last recorded move (`File`), which the source indexes
   * without a check (`Unreadable` when there is no such character).
   */
  datatype Passant = Off | File(x: int) | Unreadable

  /** What move generation reads: the piece each tile points at, the two piece arrays and the en-passant reading. */
  datatype Position = Position(board: seq<seq<Option<Id>>>, pieces: seq<seq<Option<Piece>>>, ep: Passant)

  predicate IsSlot(id: Id) {
    0 <= id.side < 2 && 0 <= id.index < 16
  }

  predicate Shaped(pos: Position) {
    IsGrid(pos.board) && |pos.pieces| == 2 && |pos.pieces[0]| == 16 && |pos.pieces[1]| == 16
  }

  /** The slot of `id` still holds its piece. */
  predicate Live(pos: Position, id: Id)
    requires Shaped(pos)
  {
    IsSlot(id) && pos.pieces[id.side][id.index].Some?
  }

  function PieceOf(pos: Position, id: Id): Piece
    requires Shaped(pos) && Live(pos, id)
  {
    pos.pieces[id.side][id.index].value
  }

  /** The piece arrays with the slot of `id` set to `v`. */
  function SetSlot(ps: seq<seq<Option<Piece>>>, id: Id, v: Option<Piece>): (r: seq<seq<Option<Piece>>>)
    requires |ps| == 2 && |ps[0]| == 16 && |ps[1]| == 16 && IsSlot(id)
    ensures |r| == 2 && |r[0]| == 16 && |r[1]| == 16
    ensures forall s, i | 0 <= s < 2 && 0 <= i < 16 :: r[s][i] == if Id(s, i) == id then v else ps[s][i]
  {
    ps[id.side := ps[id.side][id.index := v]]
  }

  /** Setting a slot and then writing back its old value gives the arrays back. */
  lemma SetSlotRestore(ps: seq<seq<Option<Piece>>>, id: Id, v: Option<Piece>)
    requires |ps| == 2 && |ps[0]| == 16 && |ps[1]| == 16 && IsSlot(id)
    ensures SetSlot(SetSlot(ps, id, v), id, ps[id.side][id.index]) == ps
  {
    var r := SetSlot(SetSlot(ps, id, v), id, ps[id.side][id.index]);
    forall s | 0 <= s < 2
      ensures r[s] == ps[s]
    {
      assert forall i | 0 <= i < 16 :: r[s][i] == ps[s][i];
    }
  }

  /** Writing a slot's own value back leaves the arrays as they are. */
  lemma SetSlotSame(ps: seq<seq<Option<Piece>>>, id: Id)
    requires |ps| == 2 && |ps[0]| == 16 && |ps[1]| == 16 && IsSlot(id)
    ensures SetSlot(ps, id, ps[id.side][id.index]) == ps
  {
    var r := SetSlot(ps, id, ps[id.side][id.index]);
    forall s | 0 <= s < 2
      ensures r[s] == ps[s]
    {
      assert forall i | 0 <= i < 16 :: r[s][i] == ps[s][i];
    }
  }

  /** Every piece a tile points at is still held in its slot. */
  ghost predicate Linked(pos: Position) {
    Shaped(pos) &&
    forall x, y | InBoard(x, y) && pos.board[x][y].Some? :: Live(pos, pos.board[x][y].value)
  }

  /**
   * The links between tiles and pieces agree both ways: a tile's piece
   * stands on that tile, and every piece still in the arrays plays for the
   * side of its array and stands on a tile of the board that points at it.
   */
  ghost predicate Valid(pos: Position) {
    Linked(pos) &&
    (forall x, y | InBoard(x, y) && pos.board[x][y].Some? :: PieceOf(pos, pos.board[x][y].value).at == Sq(x, y)) &&
    (forall s, i | 0 <= s < 2 && 0 <= i < 16 && pos.pieces[s][i].Some? ::
       pos.pieces[s][i].value.team == s &&
       InBoard(pos.pieces[s][i].value.at.x, pos.pieces[s][i].value.at.y) &&
       pos.board[pos.pieces[s][i].value.at.x][pos.pieces[s][i].value.at.y] == Some(Id(s, i)))
  }

  /** The other team, computed as `checkCheck` does. */
  function Opponent(team: int): int {
    (team + 1) % 2
  }

  function Dir(team: int): int {
    if team == 0 then 1 else -1
  }

  /** The back rank of a team, where `Game()` places its pieces and castling looks. */
  function Home(team: int): int {
    if team == 0 then 0 else 7
  }

  /** Piece.TileCheck: 0 for a tile holding a piece of `team`, 1 for another team's piece, 2 for an empty tile. */
  function TileCheck(pos: Position, team: int, t: Sq): (r: int)
    requires Linked(pos) && InBoard(t.x, t.y)
    ensures r == 2 <==> pos.board[t.x][t.y] == None
    ensures r == 0 <==> pos.board[t.x][t.y].Some? && PieceOf(pos, pos.board[t.x][t.y].value).team == team
    ensures r == 1 <==> pos.board[t.x][t.y].Some? && PieceOf(pos, pos.board[t.x][t.y].value).team != team
  {
    match pos.board[t.x][t.y]
    case None => 2
    case Some(id) => if PieceOf(pos, id).team == team then 0 else 1
  }

  /** The en-passant reading of the game's flag and move record. */
  function Passing(moveList: seq<string>, enPassant: bool): (r: Passant)
    ensures r == Unreadable <==> enPassant && (|moveList| == 0 || |moveList[|moveList| - 1]| == 0)
    ensures r.File? ==> enPassant && r.x == moveList[|moveList| - 1][0] as int - 'a' as int
  {
    if !enPassant then Off
    else if |moveList| == 0 || |moveList[|moveList| - 1]| == 0 then Unreadable
    else File(moveList[|moveList| - 1][0] as int - 'a' as int)
  }

  // ---------------------------------------------------------------------
  // The squares a piece's generator visits
  // ---------------------------------------------------------------------

  /**
   * The generator of `p` stays inside the grid. Two reads are unguarded in
   * the source: a knight's last two jumps are guarded by `x - 1 < 8`, which
   * is always true, so a knight on the a-file reads column -1; and an
   * unmoved pawn reads the tile two ahead of it without a bounds check.
   */
  predicate Generable(p: Piece) {
    InBoard(p.at.x, p.at.y) &&
    (p.kind == 'N' ==> p.at.x >= 1) &&
    (p.kind == 'P' && !p.moved && 0 <= p.at.y + Dir(p.team) < 8 ==> 0 <= p.at.y + 2 * Dir(p.team) < 8)
  }

  predicate AllGenerable(pos: Position, side: int)
    requires Shaped(pos) && 0 <= side < 2
  {
    forall i | 0 <= i < 16 && pos.pieces[side][i].Some? :: Generable(pos.pieces[side][i].value)
  }

  /**
   * The pawn's squares, when the rank ahead is on the board: ahead, two
   * ahead while unmoved (whatever stands in between), and the two diagonals
   * ahead.
   */
  function PawnSquares(p: Piece): set<Sq> {
    var x, y, d := p.at.x, p.at.y, Dir(p.team);
    if 0 <= y + d < 8 then
      {Sq(x, y + d)} +
      (if !p.moved then {Sq(x, y + 2 * d)} else {}) +
      (if x + 1 < 8 then {Sq(x + 1, y + d)} else {}) +
      (if x - 1 >= 0 then {Sq(x - 1, y + d)} else {})
    else {}
  }

  /** Every square the generator of `p` visits; in attack mode it lists exactly these. Every ray is six steps long. */
  function Candidates(pos: Position, p: Piece): set<Sq>
    requires Shaped(pos) && Generable(p)
  {
    var x, y := p.at.x, p.at.y;
    match p.kind
    case 'K' => KingSquares(x, y)
    case 'Q' => QueenReach(pos.board, x, y, 6)
    case 'R' => LineReach(pos.board, x, y, 6)
    case 'B' => DiagonalReach(pos.board, x, y, 6)
    case 'N' => KnightJumps(x, y)
    case 'P' => PawnSquares(p)
    case _ => {}
  }

  /** Everything the pieces of `side` in slots `0 .. n-1` attack. */
  function Attacks(pos: Position, side: int, n: nat): set<Sq>
    requires Shaped(pos) && 0 <= side < 2 && n <= 16 && AllGenerable(pos, side)
  {
    if n == 0 then {}
    else
      var rest := Attacks(pos, side, n - 1);
      if pos.pieces[side][n - 1].Some? then rest + Candidates(pos, pos.pieces[side][n - 1].value) else rest
  }

  // ---------------------------------------------------------------------
  // Check and the trial move
  // ---------------------------------------------------------------------

  /** `checkCheck(team)` can run: the king's slot is not null and the opponent's generators stay on the grid. */
  predicate KingReady(pos: Position, team: int)
    requires Shaped(pos)
  {
    0 <= team < 2 && Live(pos, Id(team, 4)) && AllGenerable(pos, Opponent(team))
  }

  /** The piece in slot 4 of `team`, its king, stands on a square the other team attacks. */
  predicate InCheck(pos: Position, team: int)
    requires Shaped(pos) && KingReady(pos, team)
  {
    PieceOf(pos, Id(team, 4)).at in Attacks(pos, Opponent(team), 16)
  }

  /**
   * The position `moveCheck` examines: the piece left its tile and points at
   * `t`, and `t` points at it. A piece that stood on `t` stays in its slot,
   * still pointing at `t`.
   */
  function Trial(pos: Position, id: Id, t: Sq): (r: Position)
    requires Valid(pos) && Live(pos, id) && InBoard(t.x, t.y)
    ensures Linked(r) && r.ep == pos.ep
    ensures forall s, i | 0 <= s < 2 && 0 <= i < 16 :: r.pieces[s][i].Some? == pos.pieces[s][i].Some?
    ensures forall s, i | 0 <= s < 2 && s != id.side && 0 <= i < 16 :: r.pieces[s][i] == pos.pieces[s][i]
  {
    var p := PieceOf(pos, id);
    var cleared := SetCell(pos.board, p.at.x, p.at.y, None);
    Position(SetCell(cleared, t.x, t.y, Some(id)), SetSlot(pos.pieces, id, Some(p.(at := t))), pos.ep)
  }

  /** Moving `id` to `t` does not leave its own king attacked. */
  predicate Safe(pos: Position, id: Id, t: Sq)
    requires Valid(pos) && Live(pos, id) && InBoard(t.x, t.y) && KingReady(pos, PieceOf(pos, id).team)
  {
    var team := PieceOf(pos, id).team;
    assert KingReady(Trial(pos, id, t), team);
    !InCheck(Trial(pos, id, t), team)
  }

  // ---------------------------------------------------------------------
  // Targets
  // ---------------------------------------------------------------------

  /**
   * `Piece.GetMoves(legal)` can run for `id`. In legal mode the en-passant
   * reading must be readable: the game keeps it so, since every record is
   * non-empty and the flag is only raised together with one.
   */
  ghost predicate Ready(pos: Position, id: Id, legal: bool) {
    Linked(pos) && Live(pos, id) && Generable(PieceOf(pos, id)) &&
    (legal ==> Valid(pos) && KingReady(pos, PieceOf(pos, id).team) && pos.ep != Unreadable)
  }

  /** The positions in which `Piece.GetMoves(legal)` can run for `id`. */
  ghost function ReadyFor(id: Id, legal: bool): iset<Position> {
    iset pos | Ready(pos, id, legal)
  }

  /**
   * The tile test of legal mode: a pawn goes straight only onto an empty
   * tile, and diagonally onto an enemy or onto the file the en-passant
   * reading names; every other piece goes onto any tile not holding its own
   * team.
   */
  predicate Wanted(pos: Position, p: Piece, t: Sq)
    requires Linked(pos) && InBoard(t.x, t.y)
  {
    var tc := TileCheck(pos, p.team, t);
    if p.kind == 'P' then (if t.x == p.at.x then tc == 2 else tc == 1 || pos.ep == File(t.x)) else tc != 0
  }

  /** Whether a visited square is listed: always in attack mode, and in legal mode when wanted and safe. */
  ghost predicate Keep(pos: Position, id: Id, legal: bool, t: Sq)
    requires Ready(pos, id, legal)
  {
    !legal || (InBoard(t.x, t.y) && Wanted(pos, PieceOf(pos, id), t) && Safe(pos, id, t))
  }

  /** The squares of the board that `id` would list if its generator visited them. */
  ghost function Kept(pos: Position, id: Id, legal: bool): set<Sq>
    requires Ready(pos, id, legal)
  {
    set x, y | 0 <= x < 8 && 0 <= y < 8 && Keep(pos, id, legal, Sq(x, y)) :: Sq(x, y)
  }

  lemma KeptIff(pos: Position, id: Id, legal: bool, t: Sq)
    requires Ready(pos, id, legal)
    ensures t in Kept(pos, id, legal) <==> InBoard(t.x, t.y) && Keep(pos, id, legal, t)
  {
    if InBoard(t.x, t.y) && Keep(pos, id, legal, t) {
      assert Sq(t.x, t.y) == t;
    }
  }

  /**
   * One castling branch of `team`: the piece in slot `slot` is there and
   * unmoved (wherever it stands), and the back-rank squares on files `pass`
   * and `land` are empty and not attacked by the other team.
   */
  ghost predicate Castle(pos: Position, team: int, slot: int, pass: int, land: int)
    requires Linked(pos) && KingReady(pos, team) && 0 <= slot < 16 && 0 <= pass < 8 && 0 <= land < 8
  {
    var r := Home(team);
    var attacked := Attacks(pos, Opponent(team), 16);
    Live(pos, Id(team, slot)) && !PieceOf(pos, Id(team, slot)).moved &&
    TileCheck(pos, team, Sq(pass, r)) == 2 && Sq(pass, r) !in attacked &&
    TileCheck(pos, team, Sq(land, r)) == 2 && Sq(land, r) !in attacked
  }

  /**
   * The castling moves of an unmoved king not in check: the queen-side
   * branch (slot 0, files d and c) lists the c-file square of the back rank
   * and the king-side branch (slot 7, files f and g) the g-file square.
   */
  ghost function Castles(pos: Position, id: Id): set<Sq>
    requires Ready(pos, id, true)
  {
    var p := PieceOf(pos, id);
    var r := Home(p.team);
    if !p.moved && !InCheck(pos, p.team) then
      (if Castle(pos, p.team, 0, 3, 2) then {Sq(2, r)} else {}) +
      (if Castle(pos, p.team, 7, 5, 6) then {Sq(6, r)} else {})
    else {}
  }

  /** The squares `Piece.GetMoves(legal)` lists for `id`: the visited squares it keeps, and a king's castling squares. */
  ghost function Targets(pos: Position, id: Id, legal: bool): set<Sq>
    requires Ready(pos, id, legal)
  {
    var p := PieceOf(pos, id);
    Candidates(pos, p) * Kept(pos, id, legal) + (if legal && p.kind == 'K' then Castles(pos, id) else {})
  }

  /** `GetMoves(side, legal)` can run. */
  ghost predicate SideReady(pos: Position, side: int, legal: bool) {
    Linked(pos) && 0 <= side < 2 && AllGenerable(pos, side) &&
    (legal ==> Valid(pos) && KingReady(pos, side) && pos.ep != Unreadable)
  }

  /** The squares listed for the pieces of `side` in slots `0 .. n-1`. */
  ghost function AllTargets(pos: Position, side: int, legal: bool, n: nat): set<Sq>
    requires SideReady(pos, side, legal) && n <= 16
  {
    if n == 0 then {}
    else
      var rest := AllTargets(pos, side, legal, n - 1);
      if pos.pieces[side][n - 1].Some? then rest + Targets(pos, Id(side, n - 1), legal) else rest
  }

  function Level(legal: bool): nat {
    if legal then 2 else 0
  }

  // ---------------------------------------------------------------------
  // Lemmas about the targets
  // ---------------------------------------------------------------------

  /** Every square a generator visits is on the board. */
  lemma CandidatesOnBoard(pos: Position, p: Piece, t: Sq)
    requires Shaped(pos) && Generable(p) && t in Candidates(pos, p)
    ensures InBoard(t.x, t.y)
  {
    var g, x, y := pos.board, p.at.x, p.at.y;
    if p.kind == 'Q' || p.kind == 'R' || p.kind == 'B' {
      var dx, dy :| IsDirection(dx, dy) && t in Reached(g, x, y, dx, dy, 6);
      ReachedOnRay(g, x, y, dx, dy, 6, t);
    }
  }

  /** In attack mode a piece lists every square its generator visits, and a king no castling square. */
  lemma PseudoTargets(pos: Position, id: Id)
    requires Ready(pos, id, false)
    ensures Targets(pos, id, false) == Candidates(pos, PieceOf(pos, id))
  {
    forall t | t in Candidates(pos, PieceOf(pos, id))
      ensures t in Kept(pos, id, false)
    {
      CandidatesOnBoard(pos, PieceOf(pos, id), t);
      KeptIff(pos, id, false, t);
    }
  }

  /** In attack mode every slot lists what it attacks, so `GetMoves(side, false)` lists the attacked squares. */
  lemma {:induction false} AllTargetsPseudo(pos: Position, side: int, n: nat)
    requires SideReady(pos, side, false) && n <= 16
    ensures AllTargets(pos, side, false, n) == Attacks(pos, side, n)
  {
    if n > 0 {
      AllTargetsPseudo(pos, side, n - 1);
      if pos.pieces[side][n - 1].Some? {
        PseudoTargets(pos, Id(side, n - 1));
      }
    }
  }

  /**
   * In legal mode a piece lists a tile holding its own team only as a pawn
   * stepping diagonally onto the file the en-passant reading names, since
   * that test looks at the file alone; every listed square other than a
   * castling square is safe, and a castling square is empty.
   */
  lemma LegalNeverOwn(pos: Position, id: Id, t: Sq)
    requires Ready(pos, id, true) && t in Targets(pos, id, true)
    ensures var p := PieceOf(pos, id);
      InBoard(t.x, t.y) &&
      (TileCheck(pos, p.team, t) != 0 || (p.kind == 'P' && t.x != p.at.x && pos.ep == File(t.x)))
    ensures t !in Castles(pos, id) ==> Safe(pos, id, t)
    ensures t in Castles(pos, id) ==> TileCheck(pos, PieceOf(pos, id).team, t) == 2
  {
    KeptIff(pos, id, true, t);
    var p := PieceOf(pos, id);
    if t in Castles(pos, id) {
      var r := Home(p.team);
      if t == Sq(2, r) {
        assert Castle(pos, p.team, 0, 3, 2);
      } else {
        assert t == Sq(6, r) && Castle(pos, p.team, 7, 5, 6);
      }
    }
  }

  /** A listed move never targets the piece's own tile, which holds its own team. */
  lemma TargetNotOrigin(pos: Position, id: Id, t: Sq)
    requires Ready(pos, id, true) && t in Targets(pos, id, true)
    ensures t != PieceOf(pos, id).at
  {
    LegalNeverOwn(pos, id, t);
  }

  /** Castling lists nothing but the c- and g-file squares of the king's back rank. */
  lemma CastlesWithin(pos: Position, id: Id)
    requires Ready(pos, id, true)
    ensures Castles(pos, id) <= {Sq(2, Home(PieceOf(pos, id).team)), Sq(6, Home(PieceOf(pos, id).team))}
  {
  }

  /**
   * Castling onto the g-file square of the back rank is listed exactly when
   * the king is unmoved and not in check, slot 7 holds a piece that is
   * unmoved, and the f- and g-squares are empty and not among the other
   * team's attacks; onto the c-file square likewise with slot 0 and the d-
   * and c-squares (the b-square is not looked at). Nothing is asked of where
   * the piece in slot 7 or slot 0 stands.
   */
  lemma CastlesIff(pos: Position, id: Id)
    requires Ready(pos, id, true)
    ensures var p := PieceOf(pos, id);
      var r := Home(p.team);
      var attacked := Attacks(pos, Opponent(p.team), 16);
      (Sq(6, r) in Castles(pos, id) <==>
         !p.moved && !InCheck(pos, p.team) && Live(pos, Id(p.team, 7)) && !PieceOf(pos, Id(p.team, 7)).moved &&
         pos.board[5][r] == None && Sq(5, r) !in attacked && pos.board[6][r] == None && Sq(6, r) !in attacked) &&
      (Sq(2, r) in Castles(pos, id) <==>
         !p.moved && !InCheck(pos, p.team) && Live(pos, Id(p.team, 0)) && !PieceOf(pos, Id(p.team, 0)).moved &&
         pos.board[3][r] == None && Sq(3, r) !in attacked && pos.board[2][r] == None && Sq(2, r) !in attacked)
  {
    var p := PieceOf(pos, id);
    var r := Home(p.team);
    assert TileCheck(pos, p.team, Sq(5, r)) == 2 <==> pos.board[5][r] == None;
    assert TileCheck(pos, p.team, Sq(6, r)) == 2 <==> pos.board[6][r] == None;
    assert TileCheck(pos, p.team, Sq(3, r)) == 2 <==> pos.board[3][r] == None;
    assert TileCheck(pos, p.team, Sq(2, r)) == 2 <==> pos.board[2][r] == None;
  }

  /** The pawn's squares: one ahead, two ahead while unmoved, and one diagonal square forward, all when the rank ahead is on the board. */
  lemma PawnSquaresIff(p: Piece, t: Sq)
    requires p.kind == 'P' && InBoard(p.at.x, p.at.y)
    ensures t in PawnSquares(p) <==> (0 <= p.at.y + Dir(p.team) < 8 &&
      ((t == Sq(p.at.x, p.at.y + Dir(p.team))) ||
       (!p.moved && t == Sq(p.at.x, p.at.y + 2 * Dir(p.team))) ||
       ((t.x == p.at.x + 1 || t.x == p.at.x - 1) && 0 <= t.x < 8 && t.y == p.at.y + Dir(p.team))))
  {
  }

  /**
   * With legality checking on, a pawn goes straight only onto an empty tile
   * and diagonally only onto an enemy or onto the file the en-passant
   * reading names; the double push is listed whenever its own tile is empty
   * and safe, even when the tile in between is occupied.
   */
  lemma PawnLegalTiles(pos: Position, id: Id, t: Sq)
    requires Ready(pos, id, true) && PieceOf(pos, id).kind == 'P'
    ensures var p := PieceOf(pos, id);
      t in Targets(pos, id, true) ==>
        InBoard(t.x, t.y) &&
        (t.x != p.at.x ==> TileCheck(pos, p.team, t) == 1 || pos.ep == File(t.x)) &&
        (t.x == p.at.x ==> TileCheck(pos, p.team, t) == 2)
    ensures var p, d := PieceOf(pos, id), Dir(PieceOf(pos, id).team);
      t == Sq(p.at.x, p.at.y + 2 * d) && 0 <= p.at.y + d < 8 ==>
        (t in Targets(pos, id, true) <==> !p.moved && TileCheck(pos, p.team, t) == 2 && Safe(pos, id, t))
  {
    var p, d := PieceOf(pos, id), Dir(PieceOf(pos, id).team);
    KeptIff(pos, id, true, t);
    PawnSquaresIff(p, t);
  }

  /**
   * A sliding ray of the queen, rook or bishop lists a square only if every
   * square before it is empty, and reaches at most six squares: a rook on
   * the a-file never reaches the h-file.
   */
  lemma SliderRange(pos: Position, p: Piece, t: Sq)
    requires Shaped(pos) && Generable(p) && (p.kind == 'Q' || p.kind == 'R' || p.kind == 'B')
    requires t in Candidates(pos, p)
    ensures exists dx, dy, k ::
      (IsDirection(dx, dy) && 1 <= k <= 6 && t == Step(p.at.x, p.at.y, dx, dy, k) &&
       InBoard(t.x, t.y) && Open(pos.board, p.at.x, p.at.y, dx, dy, k - 1))
    ensures -6 <= t.x - p.at.x <= 6 && -6 <= t.y - p.at.y <= 6
  {
    var g, x, y := pos.board, p.at.x, p.at.y;
    var dx, dy :| IsDirection(dx, dy) && t in Reached(g, x, y, dx, dy, 6);
    ReachedOnRay(g, x, y, dx, dy, 6, t);
  }

  // ---------------------------------------------------------------------
  // How the generator's loops build the targets
  // ---------------------------------------------------------------------

  /** The pawn's squares that lie in `k`, square by square in the source's order. */
  lemma PawnScan(p: Piece, k: set<Sq>)
    ensures var x, y, d := p.at.x, p.at.y, Dir(p.team);
      PawnSquares(p) * k ==
      if 0 <= y + d < 8 then
        {Sq(x, y + d)} * k +
        (if !p.moved then {Sq(x, y + 2 * d)} * k else {}) +
        (if x + 1 < 8 then {Sq(x + 1, y + d)} * k else {}) +
        (if x - 1 >= 0 then {Sq(x - 1, y + d)} * k else {})
      else {}
  {
  }

  // ---------------------------------------------------------------------
  // The start position
  // ---------------------------------------------------------------------

  function PawnRow(side: int): int {
    if side == 0 then 1 else 6
  }

  /** The piece `Game()` creates in slot `i` of `side`: R N B Q K B N R in slots 0-7, pawns in slots 8-15, none moved. */
  function StartPiece(side: int, i: int): Piece {
    if 0 <= i < 8 then Piece(TrialGame.BackRank[i], side, Sq(i, Home(side)), false)
    else Piece('P', side, Sq(i - 8, PawnRow(side)), false)
  }

  /** The piece the tile at (x, y) points at after `Game()`. */
  function StartCell(x: int, y: int): Option<Id> {
    if y == 0 then Some(Id(0, x))
    else if y == 1 then Some(Id(0, 8 + x))
    else if y == 6 then Some(Id(1, 8 + x))
    else if y == 7 then Some(Id(1, x))
    else None
  }

  function StartBoard(): seq<seq<Option<Id>>> {
    seq(8, x => seq(8, y => StartCell(x, y)))
  }

  function StartPieces(): seq<seq<Option<Piece>>> {
    seq(2, s => seq(16, i => Some(StartPiece(s, i))))
  }

  /** Every tile of the start position points at a piece standing on it, and every piece's tile points back. */
  lemma StartValid()
    ensures Valid(Position(StartBoard(), StartPieces(), Off))
  {
    var pos := Position(StartBoard(), StartPieces(), Off);
    assert Shaped(pos);
    forall x, y | InBoard(x, y) && pos.board[x][y].Some?
      ensures Live(pos, pos.board[x][y].value) && PieceOf(pos, pos.board[x][y].value).at == Sq(x, y)
    {
      StartCellPiece(x, y);
    }
    forall s, i | 0 <= s < 2 && 0 <= i < 16
      ensures pos.board[StartPiece(s, i).at.x][StartPiece(s, i).at.y] == Some(Id(s, i))
    {
      StartPieceCell(s, i);
    }
  }

  lemma StartCellPiece(x: int, y: int)
    requires InBoard(x, y) && StartCell(x, y).Some?
    ensures IsSlot(StartCell(x, y).value)
    ensures StartPiece(StartCell(x, y).value.side, StartCell(x, y).value.index).at == Sq(x, y)
  {
  }

  lemma StartPieceCell(s: int, i: int)
    requires 0 <= s < 2 && 0 <= i < 16
    ensures InBoard(StartPiece(s, i).at.x, StartPiece(s, i).at.y) && StartPiece(s, i).team == s
    ensures StartCell(StartPiece(s, i).at.x, StartPiece(s, i).at.y) == Some(Id(s, i))
  {
  }

  /**
   * The start position holds sixteen unmoved pieces per side; the king sits
   * in slot 4 on the e-file of its back rank, the rooks in slots 0 and 7 on
   * the corners, and the pawns of slots 8-15 fill rank 2 (white) or rank 7
   * (black).
   */
  lemma StartLayout(s: int, i: int)
    requires 0 <= s < 2 && 0 <= i < 16
    ensures StartPieces()[s][i].Some? && StartPieces()[s][i].value.team == s && !StartPieces()[s][i].value.moved
    ensures i == 4 ==> StartPieces()[s][i].value == Piece('K', s, Sq(4, Home(s)), false)
    ensures i == 0 || i == 7 ==> StartPieces()[s][i].value == Piece('R', s, Sq(i, Home(s)), false)
    ensures i >= 8 ==> StartPieces()[s][i].value == Piece('P', s, Sq(i - 8, if s == 0 then 1 else 6), false)
    ensures forall x, y | InBoard(x, y) && 2 <= y < 6 :: StartBoard()[x][y] == None
  {
  }

  /** From the start position both sides can generate their moves in either mode: no knight stands on the a-file and every unmoved pawn has two ranks ahead. */
  lemma StartReady(s: int, legal: bool)
    requires 0 <= s < 2
    ensures SideReady(Position(StartBoard(), StartPieces(), Off), s, legal)
  {
    StartValid();
  }

  // ---------------------------------------------------------------------
  // Typed moves
  // ---------------------------------------------------------------------

  /** A castling as typed: `O-O` or `O-O-O`, with nothing before or after. */
  predicate CastleText(s: string) {
    s == "O-O" || s == "O-O-O"
  }

  /**
   * The decomposition in `update`: a pawn push, a pawn capture and a piece
   * move decompose as in the earlier revision; a castling gives the king's
   * letter and its target square, on the g-file for `O-O` and the c-file
   * for `O-O-O`, on rank 1 when an even turn is to move and on rank 8
   * otherwise. Any other text gives nothing, and `update` asks again.
   */
  function Decompose(input: string, turn: nat): (r: Option<TrialGame.Typed>)
    ensures r.Some? <==> TrialGame.Decompose(input).Some? || CastleText(input)
    ensures TrialGame.Decompose(input).Some? ==> r == TrialGame.Decompose(input)
    ensures CastleText(input) ==> (r.Some? && r.value.piece == "K" &&
      r.value.move == [if input == "O-O" then 'g' else 'c', if turn % 2 == 0 then '1' else '8'])
  {
    var earlier := TrialGame.Decompose(input);
    if earlier.Some? then earlier
    else if CastleText(input) then
      var side := if turn % 2 == 0 then "1" else "8";
      Some(TrialGame.Typed("K", (if |input| == 3 then "g" else "c") + side))
    else None
  }

  /** `O-O` and `O-O-O` name the king's castling squares on the back rank of the side to move, and a castling with a '+' is not recognised. */
  lemma DecomposeCastles(turn: nat)
    ensures var rank := if turn % 2 == 0 then '1' else '8';
      Decompose("O-O", turn) == Some(TrialGame.Typed("K", ['g', rank])) &&
      Decompose("O-O-O", turn) == Some(TrialGame.Typed("K", ['c', rank])) &&
      Decompose("O-O+", turn) == None
  {
    assert TrialGame.Unchecked("O-O") == "O-O";
    assert TrialGame.Unchecked("O-O-O") == "O-O-O";
    assert TrialGame.Unchecked("O-O+") == "O-O";
  }

  /** The castling squares a typed castling names are the squares the king's generator lists for it. */
  lemma DecomposeCastleSquares(turn: nat, input: string)
    requires CastleText(input)
    ensures var m := Decompose(input, turn).value.move;
      SquareAt(m, 0) == Sq(if input == "O-O" then 6 else 2, Home(turn % 2))
  {
  }

  // ---------------------------------------------------------------------
  // Applying a move
  // ---------------------------------------------------------------------

  /** The fields `movePiece` writes, as values. */
  datatype Fields = Fields(board: seq<seq<Option<Id>>>, pieces: seq<seq<Option<Piece>>>, moveList: seq<string>, enPassant: bool)

  /** The position the fields describe. */
  function At(f: Fields): Position {
    Position(f.board, f.pieces, Passing(f.moveList, f.enPassant))
  }

  function Abs(v: int): int {
    if v < 0 then -v else v
  }

  /** The rank step from an en-passant target back to the pawn it takes. */
  function Back(team: int): int {
    if team == 0 then -1 else 1
  }

  /** The letters the promotion prompt accepts. */
  predicate IsPromotion(c: char) {
    c == 'Q' || c == 'R' || c == 'B' || c == 'N'
  }

  /** Slot `i` of the array of `opp` is the object `o` the removal scan compares it with (null with null). */
  predicate Matches(ps: seq<seq<Option<Piece>>>, opp: int, i: int, o: Option<Id>)
    requires |ps| == 2 && |ps[0]| == 16 && |ps[1]| == 16 && 0 <= opp < 2 && 0 <= i < 16
  {
    match o
    case None => ps[opp][i].None?
    case Some(v) => ps[opp][i].Some? && Id(opp, i) == v
  }

  /**
   * The removal scan `for (i = 0; i <= 16; i++)` finds `o` among the slots
   * of `opp`; when it does not, it reads slot 16 and fails. A null `o`
   * matches the first null slot.
   */
  predicate Findable(f: Fields, opp: int, o: Option<Id>)
    requires Shaped(At(f)) && 0 <= opp < 2
  {
    exists i | 0 <= i < 16 :: Matches(f.pieces, opp, i, o)
  }

  /** What the scan does: the slot holding `o` becomes null; for a null `o` nothing changes. */
  function Remove(f: Fields, o: Option<Id>): (r: Fields)
    requires Shaped(At(f)) && (o.Some? ==> IsSlot(o.value))
    ensures Shaped(At(r)) && r.board == f.board && r.moveList == f.moveList && r.enPassant == f.enPassant
  {
    if o.Some? then f.(pieces := SetSlot(f.pieces, o.value, None)) else f
  }

  /** A capture: the piece on the target leaves its slot (its tile is overwritten later). */
  function Capture(f: Fields, t: Sq): Fields
    requires Linked(At(f)) && InBoard(t.x, t.y)
  {
    Remove(f, f.board[t.x][t.y])
  }

  /** An en-passant capture: a pawn stepping one file aside onto a tile that holds no piece. */
  predicate TakesPassing(f: Fields, id: Id, t: Sq)
    requires Shaped(At(f)) && Live(At(f), id) && InBoard(t.x, t.y)
  {
    var p := PieceOf(At(f), id);
    p.kind == 'P' && f.board[t.x][t.y].None? && Abs(t.x - p.at.x) == 1
  }

  /** The tile behind an en-passant target, on the mover's side of it. */
  function Behind(f: Fields, id: Id, t: Sq): Sq
    requires Shaped(At(f)) && Live(At(f), id)
  {
    Sq(t.x, t.y + Back(PieceOf(At(f), id).team))
  }

  /** The en-passant branch: the piece behind the target leaves its slot and its tile is cleared. */
  function PassantCapture(f: Fields, id: Id, t: Sq): (r: Fields)
    requires Shaped(At(f)) && Live(At(f), id) && InBoard(t.x, t.y)
    requires TakesPassing(f, id, t) ==> (InBoard(Behind(f, id, t).x, Behind(f, id, t).y) &&
      (f.board[Behind(f, id, t).x][Behind(f, id, t).y].Some? ==> IsSlot(f.board[Behind(f, id, t).x][Behind(f, id, t).y].value)))
    ensures Shaped(At(r)) && r.moveList == f.moveList && r.enPassant == f.enPassant
  {
    if TakesPassing(f, id, t) then
      var e := Behind(f, id, t);
      var g := Remove(f, f.board[e.x][e.y]);
      g.(board := SetCell(g.board, e.x, e.y, None))
    else f
  }

  /** The flag is raised by a pawn moving two ranks and lowered by every other move. */
  function SetFlag(f: Fields, id: Id, t: Sq): Fields
    requires Shaped(At(f)) && Live(At(f), id)
  {
    var p := PieceOf(At(f), id);
    f.(enPassant := p.kind == 'P' && Abs(p.at.y - t.y) == 2)
  }

  /** A king moving two files castles. */
  predicate Castling(f: Fields, id: Id, t: Sq)
    requires Shaped(At(f)) && Live(At(f), id)
  {
    var p := PieceOf(At(f), id);
    p.kind == 'K' && Abs(p.at.x - t.x) == 2
  }

  /** The castling branch can run: the slots it dereferences hold pieces (slot 7 on both sides, slot 0 on the queen side). */
  predicate CastleReady(f: Fields, id: Id, t: Sq)
    requires Shaped(At(f)) && Live(At(f), id)
  {
    var team := PieceOf(At(f), id).team;
    Castling(f, id, t) ==>
      0 <= team < 2 && Live(At(f), Id(team, 7)) && (t.x != 6 ==> Live(At(f), Id(team, 0)))
  }

  /**
   * The castling branch. Onto the g-file: the h-file corner of the back
   * rank is cleared and the piece in slot 7 goes to the f-file square and is
   * marked as moved. Otherwise: the a-file corner is cleared and the piece in
   * slot 0 goes to the d-file square, and it is again slot 7 that is marked
   * as moved.
   */
  function CastleRook(f: Fields, id: Id, t: Sq): (r: Fields)
    requires Shaped(At(f)) && Live(At(f), id) && CastleReady(f, id, t)
    ensures Shaped(At(r)) && r.moveList == f.moveList && r.enPassant == f.enPassant
    ensures forall s, i | 0 <= s < 2 && 0 <= i < 16 :: r.pieces[s][i].Some? == f.pieces[s][i].Some?
    ensures Live(At(r), id) &&
      (InBoard(PieceOf(At(f), id).at.x, PieceOf(At(f), id).at.y) ==> InBoard(PieceOf(At(r), id).at.x, PieceOf(At(r), id).at.y))
  {
    if Castling(f, id, t) then
      var team := PieceOf(At(f), id).team;
      var r := Home(team);
      if t.x == 6 then
        var rook := PieceOf(At(f), Id(team, 7));
        f.(board := SetCell(SetCell(f.board, 7, r, None), 5, r, Some(Id(team, 7))),
           pieces := SetSlot(f.pieces, Id(team, 7), Some(rook.(at := Sq(5, r), moved := true))))
      else
        var rook := PieceOf(At(f), Id(team, 0));
        var ps := SetSlot(f.pieces, Id(team, 0), Some(rook.(at := Sq(3, r))));
        f.(board := SetCell(SetCell(f.board, 0, r, None), 3, r, Some(Id(team, 0))),
           pieces := SetSlot(ps, Id(team, 7), Some(ps[team][7].value.(moved := true))))
    else f
  }

  /** The piece leaves its tile for the target and is marked as moved. */
  function Relocate(f: Fields, id: Id, t: Sq): (r: Fields)
    requires Shaped(At(f)) && Live(At(f), id) && InBoard(PieceOf(At(f), id).at.x, PieceOf(At(f), id).at.y) && InBoard(t.x, t.y)
    ensures Shaped(At(r)) && Live(At(r), id) && r.moveList == f.moveList && r.enPassant == f.enPassant
  {
    var p := PieceOf(At(f), id);
    var cleared := SetCell(f.board, p.at.x, p.at.y, None);
    f.(board := SetCell(cleared, t.x, t.y, Some(id)), pieces := SetSlot(f.pieces, id, Some(p.(at := t, moved := true))))
  }

  /** A pawn promotes on the last rank of its team. */
  predicate Promotes(p: Piece, t: Sq) {
    (p.team == 0 && t.y == 7) || (p.team == 1 && t.y == 0)
  }

  /** A pawn that reached its last rank takes the letter chosen at the prompt. */
  function Promote(f: Fields, id: Id, t: Sq, promo: char): (r: Fields)
    requires Shaped(At(f)) && Live(At(f), id)
    ensures Shaped(At(r)) && Live(At(r), id) && r.board == f.board && r.moveList == f.moveList && r.enPassant == f.enPassant
  {
    var p := PieceOf(At(f), id);
    if p.kind == 'P' && Promotes(p, t) then f.(pieces := SetSlot(f.pieces, id, Some(p.(kind := promo)))) else f
  }

  /** The en-passant branch can run: the tile behind the target is on the board and the scan finds its piece. */
  predicate PassantReady(f: Fields, id: Id, t: Sq, opp: int)
    requires Shaped(At(f)) && Live(At(f), id) && InBoard(t.x, t.y) && 0 <= opp < 2
  {
    TakesPassing(f, id, t) ==>
      var e := Behind(f, id, t);
      InBoard(e.x, e.y) && Findable(f, opp, f.board[e.x][e.y])
  }

  /**
   * The scans and the castling branch of `movePiece` find what they
   * dereference. The capture scan runs only when the target holds a piece;
   * the en-passant scan runs only for a pawn stepping aside onto an empty tile.
   */
  predicate Scans(f: Fields, id: Id, t: Sq, opp: int)
    requires Shaped(At(f)) && Live(At(f), id)
  {
    InBoard(t.x, t.y) && 0 <= opp < 2 &&
    (f.board[t.x][t.y].Some? ==> Findable(f, opp, f.board[t.x][t.y])) &&
    PassantReady(f, id, t, opp) && CastleReady(f, id, t)
  }

  /**
   * What the steps of `movePiece` need to run on a listed move: the links
   * agree, the target is another tile, a castling target is empty, and the
   * scans and the castling branch find their pieces.
   */
  ghost predicate Applicable(f: Fields, id: Id, t: Sq, opp: int) {
    Valid(At(f)) && Live(At(f), id) && Scans(f, id, t, opp) &&
    t != PieceOf(At(f), id).at && (Castling(f, id, t) ==> f.board[t.x][t.y] == None)
  }

  /**
   * `movePiece` can apply the listed move of `id` to `t` without failing:
   * the capture scan and the en-passant scan find what they look for in
   * the array of `opp`, and the castling branch finds its pieces.
   */
  ghost predicate Movable(f: Fields, id: Id, t: Sq, opp: int) {
    Ready(At(f), id, true) && t in Targets(At(f), id, true) && Scans(f, id, t, opp)
  }

  /**
   * From the start position the steps of `movePiece` can run for the quiet
   * move e2-e4, although every slot of the other side holds a piece.
   */
  lemma StartPushApplicable()
    ensures Applicable(Fields(StartBoard(), StartPieces(), [], false), Id(0, 12), Sq(4, 3), 1)
    ensures forall i | 0 <= i < 16 :: StartPieces()[1][i].Some?
  {
    StartValid();
  }

  /** A listed move of a king across two files is one of its castlings, onto an empty tile. */
  lemma CastlingQuiet(f: Fields, id: Id, t: Sq)
    requires Ready(At(f), id, true) && t in Targets(At(f), id, true) && Castling(f, id, t)
    ensures t in Castles(At(f), id) && f.board[t.x][t.y] == None
  {
    LegalNeverOwn(At(f), id, t);
    if t !in Castles(At(f), id) {
      assert false;
    }
  }

  /** Every move `movePiece` can apply lands on another, listed tile. */
  lemma MovableApplicable(f: Fields, id: Id, t: Sq, opp: int)
    requires Movable(f, id, t, opp)
    ensures Applicable(f, id, t, opp)
  {
    TargetNotOrigin(At(f), id, t);
    if Castling(f, id, t) {
      CastlingQuiet(f, id, t);
    }
  }

  /** The capture removes the piece standing on the target, which is not the mover. */
  lemma CaptureKeeps(f: Fields, id: Id, t: Sq, opp: int)
    requires Applicable(f, id, t, opp)
    ensures var f1 := Capture(f, t);
      Live(At(f1), id) && PieceOf(At(f1), id) == PieceOf(At(f), id) && f1.board == f.board
  {
    if f.board[t.x][t.y].Some? {
      assert PieceOf(At(f), f.board[t.x][t.y].value).at == t;
    }
  }

  /** The en-passant branch sees the original tiles and removes the piece behind the target, which is not the mover. */
  lemma PassantKeeps(f: Fields, id: Id, t: Sq, opp: int)
    requires Applicable(f, id, t, opp)
    ensures var f1 := Capture(f, t);
      Live(At(f1), id) && (TakesPassing(f1, id, t) <==> TakesPassing(f, id, t)) &&
      (TakesPassing(f, id, t) ==> (f1 == f && InBoard(Behind(f, id, t).x, Behind(f, id, t).y) &&
         Live(At(PassantCapture(f, id, t)), id) && PieceOf(At(PassantCapture(f, id, t)), id) == PieceOf(At(f), id)))
  {
    CaptureKeeps(f, id, t, opp);
    if TakesPassing(f, id, t) {
      var e := Behind(f, id, t);
      if f.board[e.x][e.y].Some? {
        assert PieceOf(At(f), f.board[e.x][e.y].value).at == e;
      }
    }
  }

  /** The fields after the capture and the en-passant branch, the stages before the flag. */
  function Captured(f: Fields, id: Id, t: Sq, opp: int): (r: Fields)
    requires Applicable(f, id, t, opp)
    ensures Shaped(At(r)) && Live(At(r), id) && PieceOf(At(r), id) == PieceOf(At(f), id)
    ensures r.moveList == f.moveList && r.enPassant == f.enPassant
    ensures Castling(f, id, t) ==> r == f
  {
    CaptureKeeps(f, id, t, opp);
    PassantKeeps(f, id, t, opp);
    var f1 := Capture(f, t);
    if TakesPassing(f, id, t) then PassantCapture(f, id, t) else f1
  }

  /** What the steps after the captures need: the mover stands on the board and the castling branch finds its pieces. */
  predicate Placeable(g: Fields, id: Id, t: Sq)
  {
    Shaped(At(g)) && Live(At(g), id) && InBoard(PieceOf(At(g), id).at.x, PieceOf(At(g), id).at.y) &&
    InBoard(t.x, t.y) && CastleReady(g, id, t)
  }

  /** The flag, the castling branch, the relocation and the promotion. */
  function Placed(g: Fields, id: Id, t: Sq, promo: char): (r: Fields)
    requires Placeable(g, id, t)
    ensures Shaped(At(r)) && Live(At(r), id) && r.moveList == g.moveList
  {
    var f3 := SetFlag(g, id, t);
    assert CastleReady(f3, id, t) by {
      assert Castling(f3, id, t) == Castling(g, id, t);
    }
    var f4 := CastleRook(f3, id, t);
    var f5 := Relocate(f4, id, t);
    Promote(f5, id, t, promo)
  }

  /** The fields after the capture, the en-passant branch, the flag, the castling branch, the relocation and the promotion. */
  function Moved(f: Fields, id: Id, t: Sq, opp: int, promo: char): (r: Fields)
    requires Applicable(f, id, t, opp)
    ensures Shaped(At(r)) && Live(At(r), id) && r.moveList == f.moveList
  {
    var g := Captured(f, id, t, opp);
    assert Placeable(g, id, t) by {
      assert Castling(g, id, t) == Castling(f, id, t);
    }
    Placed(g, id, t, promo)
  }

  /** The start of the record: the origin file for a pawn changing file, nothing for a pawn going straight, the type letter for any other piece. */
  function Lead(p: Piece, t: Sq): (r: string)
    requires InBoard(p.at.x, p.at.y)
    ensures p.kind == 'P' && p.at.x != t.x ==> r == [SquareName(p.at)[0]]
    ensures p.kind == 'P' && p.at.x == t.x ==> r == []
    ensures p.kind != 'P' ==> r == [p.kind]
  {
    if p.kind == 'P' && p.at.x != t.x then [('a' as int + p.at.x) as char]
    else if p.kind != 'P' then [p.kind]
    else []
  }

  /** The character a rival adds: the mover's rank when the rival shares its file, else the mover's file. */
  function HintChar(rival: Piece, p: Piece): (c: char)
    requires InBoard(p.at.x, p.at.y)
    ensures rival.at.x == p.at.x ==> c == SquareName(p.at)[1]
    ensures rival.at.x != p.at.x ==> c == SquareName(p.at)[0]
  {
    if rival.at.x == p.at.x then ('1' as int + p.at.y) as char else ('a' as int + p.at.x) as char
  }

  /** Every piece of the mover's team with the mover's type can generate its moves. */
  predicate Rivals(pos: Position, id: Id)
    requires Shaped(pos) && Live(pos, id) && 0 <= PieceOf(pos, id).team < 2
  {
    var p := PieceOf(pos, id);
    forall j | 0 <= j < 16 && pos.pieces[p.team][j].Some? && pos.pieces[p.team][j].value.kind == p.kind ::
      Generable(pos.pieces[p.team][j].value)
  }

  /** A piece of the mover's team and type is ready to list its legal moves when the mover is. */
  lemma RivalReady(pos: Position, id: Id, j: int)
    requires Ready(pos, id, true) && Rivals(pos, id) && 0 <= j < 16
    requires pos.pieces[PieceOf(pos, id).team][j].Some? && pos.pieces[PieceOf(pos, id).team][j].value.kind == PieceOf(pos, id).kind
    ensures Ready(pos, Id(PieceOf(pos, id).team, j), true)
  {
  }

  /** Slot `j` of the mover's team holds another piece of its type that also lists `t`. */
  ghost predicate Rival(pos: Position, id: Id, t: Sq, j: int)
    requires Ready(pos, id, true) && Rivals(pos, id) && 0 <= j < 16
  {
    var p := PieceOf(pos, id);
    pos.pieces[p.team][j].Some? && Id(p.team, j) != id && pos.pieces[p.team][j].value.kind == p.kind &&
    (RivalReady(pos, id, j); t in Targets(pos, Id(p.team, j), true))
  }

  /** The hint slot `j` adds: the mover's rank or file when it holds a rival, else nothing. */
  ghost function HintAt(pos: Position, id: Id, t: Sq, j: int): (r: string)
    requires Ready(pos, id, true) && Rivals(pos, id) && 0 <= j < 16
    ensures r == "" <==> !Rival(pos, id, t, j)
    ensures |r| <= 1 && forall i | 0 <= i < |r| :: TrialGame.IsHint(r[i])
  {
    var p := PieceOf(pos, id);
    if Rival(pos, id, t, j) then [HintChar(pos.pieces[p.team][j].value, p)] else ""
  }

  /** What each of the 16 slots of the mover's team adds, in slot order. */
  ghost function HintSlots(pos: Position, id: Id, t: Sq): (r: seq<string>)
    requires Ready(pos, id, true) && Rivals(pos, id)
    ensures |r| == 16 && forall j | 0 <= j < 16 :: r[j] == HintAt(pos, id, t, j)
  {
    seq(16, j requires 0 <= j < 16 => HintAt(pos, id, t, j))
  }

  /** The disambiguation: one character for each rival in slots `0 .. n-1`, in slot order. */
  ghost function Hints(pos: Position, id: Id, t: Sq, n: nat): (r: string)
    requires Ready(pos, id, true) && Rivals(pos, id) && n <= 16
  {
    Fen.Concat(HintSlots(pos, id, t)[..n])
  }

  /** Looking at one more slot appends what that slot adds. */
  lemma HintsStep(pos: Position, id: Id, t: Sq, n: nat)
    requires Ready(pos, id, true) && Rivals(pos, id) && n < 16
    ensures Hints(pos, id, t, n + 1) == Hints(pos, id, t, n) + HintAt(pos, id, t, n)
  {
    var slots := HintSlots(pos, id, t);
    assert slots[..n + 1][..n] == slots[..n];
  }

  /**
   * `movePiece` can record the listed move of `id` to `t`: the rivals of the
   * mover can generate their moves, the steps find their pieces, and the
   * final check test can run on the new position.
   */
  ghost predicate Playable(f: Fields, id: Id, t: Sq, opp: int, promo: char) {
    Movable(f, id, t, opp) && Rivals(At(f), id) &&
    (MovableApplicable(f, id, t, opp); KingReady(At(Moved(f, id, t, opp, promo)), opp))
  }

  /** The start of the record: the lead and the disambiguation hints. */
  ghost function Opening(f: Fields, id: Id, t: Sq): string
    requires Ready(At(f), id, true) && Rivals(At(f), id)
  {
    Lead(PieceOf(At(f), id), t) + Hints(At(f), id, t, 16)
  }

  /** A record from its parts: the lead and hints, `x` for a capture, the target's name, and `+` for a check. */
  function Record(opening: string, capture: bool, t: Sq, check: bool): string
    requires InBoard(t.x, t.y)
  {
    opening + (if capture then "x" else "") + SquareName(t) + (if check then "+" else "")
  }

  /** The record of the move: lead, hints, `x` when the target held a piece, the target's name, and `+` when `opp` is now in check. */
  ghost function MoveText(f: Fields, id: Id, t: Sq, opp: int, promo: char): string
    requires Playable(f, id, t, opp, promo)
  {
    Record(Opening(f, id, t), f.board[t.x][t.y].Some?, t, Checks(f, id, t, opp, promo))
  }

  /** The move leaves `opp` in check. */
  ghost predicate Checks(f: Fields, id: Id, t: Sq, opp: int, promo: char)
    requires Playable(f, id, t, opp, promo)
  {
    MovableApplicable(f, id, t, opp);
    InCheck(At(Moved(f, id, t, opp, promo)), opp)
  }

  /** A successful `movePiece`: the moved fields with the record appended to the move list. */
  ghost function Play(f: Fields, id: Id, t: Sq, opp: int, promo: char): Fields
    requires Playable(f, id, t, opp, promo)
  {
    MovableApplicable(f, id, t, opp);
    var g := Moved(f, id, t, opp, promo);
    g.(moveList := f.moveList + [MoveText(f, id, t, opp, promo)])
  }

  /** The fields on which `movePiece` can record the move of `id` to `t`. */
  ghost function PlayableFor(id: Id, t: Sq, opp: int, promo: char): iset<Fields> {
    iset f | Playable(f, id, t, opp, promo)
  }

  /** Every tile other than `t` points at a piece still held in its slot. */
  ghost predicate LinkedBut(pos: Position, t: Sq) {
    Shaped(pos) &&
    forall x, y | InBoard(x, y) && Sq(x, y) != t && pos.board[x][y].Some? :: Live(pos, pos.board[x][y].value)
  }

  /** The castling branch points the tiles it writes at held pieces. */
  lemma CastleLinked(f: Fields, id: Id, t: Sq)
    requires Shaped(At(f)) && Live(At(f), id) && CastleReady(f, id, t) && LinkedBut(At(f), t)
    ensures LinkedBut(At(CastleRook(f, id, t)), t)
  {
    var r := CastleRook(f, id, t);
    forall x, y | InBoard(x, y) && Sq(x, y) != t && r.board[x][y].Some?
      ensures Live(At(r), r.board[x][y].value)
    {
      if r.board[x][y] == f.board[x][y] {
        assert Live(At(f), f.board[x][y].value);
      }
    }
  }

  /** Relocation points the target at the mover and clears the origin, so every tile points at a held piece. */
  lemma RelocateLinked(f: Fields, id: Id, t: Sq)
    requires Shaped(At(f)) && Live(At(f), id) && InBoard(PieceOf(At(f), id).at.x, PieceOf(At(f), id).at.y) && InBoard(t.x, t.y)
    requires LinkedBut(At(f), t)
    ensures Linked(At(Relocate(f, id, t)))
  {
    var r := Relocate(f, id, t);
    forall x, y | InBoard(x, y) && r.board[x][y].Some?
      ensures Live(At(r), r.board[x][y].value)
    {
      if Sq(x, y) != t && r.board[x][y] == f.board[x][y] {
        assert Live(At(f), f.board[x][y].value);
      }
    }
  }

  /** Promotion only changes the type letter, so it keeps the links. */
  lemma PromoteLinked(f: Fields, id: Id, t: Sq, promo: char)
    requires Linked(At(f)) && Live(At(f), id)
    ensures Linked(At(Promote(f, id, t, promo)))
  {
    var r := Promote(f, id, t, promo);
    forall x, y | InBoard(x, y) && r.board[x][y].Some?
      ensures Live(At(r), r.board[x][y].value)
    {
      assert Live(At(f), f.board[x][y].value);
    }
  }

  /** After a move every tile points at a piece still held in its slot, so the check test can run. */
  lemma MovedLinked(f: Fields, id: Id, t: Sq, opp: int, promo: char)
    requires Applicable(f, id, t, opp)
    ensures Linked(At(Moved(f, id, t, opp, promo)))
  {
    CapturedTiles(f, id, t, opp);
    var f2 := Captured(f, id, t, opp);
    assert LinkedBut(At(f2), t);
    var f3 := SetFlag(f2, id, t);
    assert LinkedBut(At(f3), t) by {
      assert f3.board == f2.board && f3.pieces == f2.pieces;
    }
    assert CastleReady(f3, id, t) by {
      assert Castling(f3, id, t) == Castling(f, id, t);
    }
    CastleLinked(f3, id, t);
    var f4 := CastleRook(f3, id, t);
    RelocateLinked(f4, id, t);
    var f5 := Relocate(f4, id, t);
    PromoteLinked(f5, id, t, promo);
  }

  /**
   * The links agree everywhere except on `t`: every other tile's piece is
   * held and stands there, and every held piece plays for the side of its
   * array and stands on a tile of the board other than `t` that points at it.
   */
  ghost predicate Settled(pos: Position, t: Sq) {
    Shaped(pos) &&
    (forall x, y | InBoard(x, y) && Sq(x, y) != t && pos.board[x][y].Some? ::
       Live(pos, pos.board[x][y].value) && PieceOf(pos, pos.board[x][y].value).at == Sq(x, y)) &&
    (forall s, i | 0 <= s < 2 && 0 <= i < 16 && pos.pieces[s][i].Some? ::
       pos.pieces[s][i].value.team == s && pos.pieces[s][i].value.at != t &&
       InBoard(pos.pieces[s][i].value.at.x, pos.pieces[s][i].value.at.y) &&
       pos.board[pos.pieces[s][i].value.at.x][pos.pieces[s][i].value.at.y] == Some(Id(s, i)))
  }

  /** After the capture and the en-passant branch every tile but the target holds a piece standing on it. */
  lemma CapturedTiles(f: Fields, id: Id, t: Sq, opp: int)
    requires Applicable(f, id, t, opp)
    ensures var g := Captured(f, id, t, opp);
      forall x, y | InBoard(x, y) && Sq(x, y) != t && g.board[x][y].Some? ::
        Live(At(g), g.board[x][y].value) && PieceOf(At(g), g.board[x][y].value).at == Sq(x, y)
  {
    var g := Captured(f, id, t, opp);
    forall x, y | InBoard(x, y) && Sq(x, y) != t && g.board[x][y].Some?
      ensures Live(At(g), g.board[x][y].value) && PieceOf(At(g), g.board[x][y].value).at == Sq(x, y)
    {
      assert f.board[x][y] == g.board[x][y];
      assert PieceOf(At(f), f.board[x][y].value).at == Sq(x, y);
      if f.board[t.x][t.y].Some? {
        assert PieceOf(At(f), f.board[t.x][t.y].value).at == t;
      }
      if TakesPassing(f, id, t) {
        var e := Behind(f, id, t);
        if f.board[e.x][e.y].Some? {
          assert PieceOf(At(f), f.board[e.x][e.y].value).at == e;
        }
      }
    }
  }

  /** After the capture and the en-passant branch the links agree everywhere but on the target, where no held piece stands. */
  lemma CapturedSettled(f: Fields, id: Id, t: Sq, opp: int)
    requires Applicable(f, id, t, opp)
    ensures Settled(At(Captured(f, id, t, opp)), t)
  {
    CapturedTiles(f, id, t, opp);
    var g := Captured(f, id, t, opp);
    forall s, i | 0 <= s < 2 && 0 <= i < 16 && g.pieces[s][i].Some?
      ensures g.pieces[s][i].value.at != t && InBoard(g.pieces[s][i].value.at.x, g.pieces[s][i].value.at.y) &&
        g.board[g.pieces[s][i].value.at.x][g.pieces[s][i].value.at.y] == Some(Id(s, i))
    {
      assert f.pieces[s][i] == g.pieces[s][i];
      var a := g.pieces[s][i].value.at;
      assert f.board[a.x][a.y] == Some(Id(s, i));
    }
  }

  /** The castling branch moves a rook from its corner to the empty tile beside the king and keeps the links. */
  lemma CastleSettled(g: Fields, id: Id, t: Sq)
    requires Settled(At(g), t) && Live(At(g), id) && CastleReady(g, id, t) && RookReady(g, id, t)
    ensures Settled(At(CastleRook(g, id, t)), t)
  {
    if Castling(g, id, t) {
      var h := CastleRook(g, id, t);
      var team := PieceOf(At(g), id).team;
      var r := Home(team);
      var c, d := if t.x == 6 then 7 else 0, if t.x == 6 then 5 else 3;
      assert PieceOf(At(g), Id(team, c)).at == Sq(c, r);
      forall x, y | InBoard(x, y) && Sq(x, y) != t && h.board[x][y].Some?
        ensures Live(At(h), h.board[x][y].value) && PieceOf(At(h), h.board[x][y].value).at == Sq(x, y)
      {
        if Sq(x, y) != Sq(d, r) {
          assert g.board[x][y] == h.board[x][y];
          assert PieceOf(At(g), g.board[x][y].value).at == Sq(x, y);
        }
      }
      forall s, i | 0 <= s < 2 && 0 <= i < 16 && h.pieces[s][i].Some?
        ensures h.pieces[s][i].value.team == s && h.pieces[s][i].value.at != t &&
          InBoard(h.pieces[s][i].value.at.x, h.pieces[s][i].value.at.y) &&
          h.board[h.pieces[s][i].value.at.x][h.pieces[s][i].value.at.y] == Some(Id(s, i))
      {
        if Id(s, i) != Id(team, c) {
          var a := g.pieces[s][i].value.at;
          assert h.pieces[s][i].value.at == a;
          assert g.board[a.x][a.y] == Some(Id(s, i));
        }
      }
    }
  }

  /** The relocation completes the links: the target points at the mover, which stands on it, and its old tile is empty. */
  lemma RelocateValid(h: Fields, id: Id, t: Sq)
    requires Settled(At(h), t) && Live(At(h), id) && InBoard(t.x, t.y)
    ensures Valid(At(Relocate(h, id, t)))
  {
    var k := Relocate(h, id, t);
    var o := PieceOf(At(h), id).at;
    forall x, y | InBoard(x, y) && k.board[x][y].Some?
      ensures Live(At(k), k.board[x][y].value) && PieceOf(At(k), k.board[x][y].value).at == Sq(x, y)
    {
      if Sq(x, y) != t {
        assert h.board[x][y] == k.board[x][y];
        assert PieceOf(At(h), h.board[x][y].value).at == Sq(x, y);
      }
    }
    forall s, i | 0 <= s < 2 && 0 <= i < 16 && k.pieces[s][i].Some?
      ensures k.pieces[s][i].value.team == s && InBoard(k.pieces[s][i].value.at.x, k.pieces[s][i].value.at.y) &&
        k.board[k.pieces[s][i].value.at.x][k.pieces[s][i].value.at.y] == Some(Id(s, i))
    {
      if Id(s, i) != id {
        var a := h.pieces[s][i].value.at;
        assert h.board[a.x][a.y] == Some(Id(s, i));
        assert a != o;
      }
    }
  }

  /** Promotion only changes the type letter, so it keeps the links. */
  lemma PromoteValid(f: Fields, id: Id, t: Sq, promo: char)
    requires Valid(At(f)) && Live(At(f), id)
    ensures Valid(At(Promote(f, id, t, promo)))
  {
    var r := Promote(f, id, t, promo);
    forall x, y | InBoard(x, y) && r.board[x][y].Some?
      ensures Live(At(r), r.board[x][y].value) && PieceOf(At(r), r.board[x][y].value).at == Sq(x, y)
    {
      assert PieceOf(At(f), f.board[x][y].value).at == Sq(x, y);
    }
    forall s, i | 0 <= s < 2 && 0 <= i < 16 && r.pieces[s][i].Some?
      ensures r.pieces[s][i].value.team == s && InBoard(r.pieces[s][i].value.at.x, r.pieces[s][i].value.at.y) &&
        r.board[r.pieces[s][i].value.at.x][r.pieces[s][i].value.at.y] == Some(Id(s, i))
    {
      assert f.pieces[s][i].Some?;
    }
  }

  /** A castling's rook stands on its corner and the tile beside the king that it goes to is empty. */
  ghost predicate RookReady(g: Fields, id: Id, t: Sq)
    requires Shaped(At(g)) && Live(At(g), id)
  {
    Castling(g, id, t) ==>
      var team := PieceOf(At(g), id).team;
      var r := Home(team);
      (t == Sq(6, r) && g.board[7][r] == Some(Id(team, 7)) && g.board[5][r] == None) ||
      (t == Sq(2, r) && g.board[0][r] == Some(Id(team, 0)) && g.board[3][r] == None)
  }

  /** The steps after the captures complete the links. */
  lemma PlacedValid(g: Fields, id: Id, t: Sq, promo: char)
    requires Settled(At(g), t) && Placeable(g, id, t) && RookReady(g, id, t)
    ensures Valid(At(Placed(g, id, t, promo)))
  {
    var f3 := SetFlag(g, id, t);
    assert Settled(At(f3), t) by {
      assert f3.board == g.board && f3.pieces == g.pieces;
    }
    assert Castling(f3, id, t) == Castling(g, id, t);
    CastleSettled(f3, id, t);
    var f4 := CastleRook(f3, id, t);
    RelocateValid(f4, id, t);
    PromoteValid(Relocate(f4, id, t), id, t, promo);
  }

  /** When a king castles, the piece it castles with (slot 7 for the g-file, slot 0 otherwise) is another piece, standing on its corner of the back rank. */
  ghost predicate RookHome(f: Fields, id: Id, t: Sq)
    requires Shaped(At(f)) && Live(At(f), id)
  {
    var team := PieceOf(At(f), id).team;
    var c := if t.x == 6 then 7 else 0;
    Castling(f, id, t) ==> InBoard(c, Home(team)) && f.board[c][Home(team)] == Some(Id(team, c)) && Id(team, c) != id
  }

  /**
   * A listed move keeps the links between tiles and pieces consistent, as
   * long as a castling rook stands on its corner (an unmoved rook does in
   * play, which `Valid` alone does not record).
   */
  lemma MovedValid(f: Fields, id: Id, t: Sq, opp: int, promo: char)
    requires Movable(f, id, t, opp) && RookHome(f, id, t)
    ensures (MovableApplicable(f, id, t, opp); Valid(At(Moved(f, id, t, opp, promo))))
  {
    MovableApplicable(f, id, t, opp);
    CapturedSettled(f, id, t, opp);
    var g := Captured(f, id, t, opp);
    if Castling(f, id, t) {
      CastlingQuiet(f, id, t);
      CastlesWithin(At(f), id);
    }
    assert Castling(g, id, t) == Castling(f, id, t);
    PlacedValid(g, id, t, promo);
  }

  // ---------------------------------------------------------------------
  // What a move does
  // ---------------------------------------------------------------------

  /** A castling goes to the c- or g-file square of the back rank, with a rook that is not the mover. */
  predicate CastleTarget(g: Fields, id: Id, t: Sq)
    requires Shaped(At(g)) && Live(At(g), id)
  {
    var team := PieceOf(At(g), id).team;
    Castling(g, id, t) ==>
      (t == Sq(2, Home(team)) || t == Sq(6, Home(team))) && Id(team, if t.x == 6 then 7 else 0) != id
  }

  /** A listed castling goes to the c- or g-file square of the back rank, and with `RookHome` its rook is not the mover. */
  lemma MovableTarget(f: Fields, id: Id, t: Sq, opp: int)
    requires Movable(f, id, t, opp) && RookHome(f, id, t)
    ensures Applicable(f, id, t, opp) && CastleTarget(Captured(f, id, t, opp), id, t)
  {
    MovableApplicable(f, id, t, opp);
    var g := Captured(f, id, t, opp);
    assert Castling(g, id, t) == Castling(f, id, t);
    if Castling(f, id, t) {
      CastlingQuiet(f, id, t);
      CastlesWithin(At(f), id);
      assert g == f;
    }
  }

  /** The steps after the captures put the mover on the target, empty its old tile and mark it as moved; a pawn on its last rank promotes. */
  lemma PlacedLands(g: Fields, id: Id, t: Sq, promo: char)
    requires Placeable(g, id, t) && CastleTarget(g, id, t) && t != PieceOf(At(g), id).at
    ensures var p := PieceOf(At(g), id);
      var h := Placed(g, id, t, promo);
      h.board[t.x][t.y] == Some(id) && h.board[p.at.x][p.at.y] == None &&
      PieceOf(At(h), id) == p.(at := t, moved := true, kind := if p.kind == 'P' && Promotes(p, t) then promo else p.kind)
  {
    var p := PieceOf(At(g), id);
    var f3 := SetFlag(g, id, t);
    assert Castling(f3, id, t) == Castling(g, id, t);
    var f4 := CastleRook(f3, id, t);
    assert PieceOf(At(f4), id).kind == p.kind && PieceOf(At(f4), id).team == p.team && PieceOf(At(f4), id).at == p.at;
  }

  /**
   * The mover ends on the target, which points at it, its old tile is
   * empty, it is marked as moved, and a pawn reaching its last rank has
   * taken the chosen letter.
   */
  lemma MovedLands(f: Fields, id: Id, t: Sq, opp: int, promo: char)
    requires Movable(f, id, t, opp) && RookHome(f, id, t)
    ensures (MovableApplicable(f, id, t, opp);
      var p := PieceOf(At(f), id);
      var g := Moved(f, id, t, opp, promo);
      g.board[t.x][t.y] == Some(id) && g.board[p.at.x][p.at.y] == None &&
      PieceOf(At(g), id) == p.(at := t, moved := true, kind := if p.kind == 'P' && Promotes(p, t) then promo else p.kind))
  {
    MovableTarget(f, id, t, opp);
    PlacedLands(Captured(f, id, t, opp), id, t, promo);
  }

  /** A piece on the target is removed from its array. */
  lemma MovedCaptures(f: Fields, id: Id, t: Sq, opp: int, promo: char)
    requires Applicable(f, id, t, opp) && f.board[t.x][t.y].Some?
    ensures f.board[t.x][t.y] != Some(id) && !Live(At(Moved(f, id, t, opp, promo)), f.board[t.x][t.y].value)
  {
    var v := f.board[t.x][t.y].value;
    assert PieceOf(At(f), v).at == t;
    var g := Captured(f, id, t, opp);
    assert !Live(At(g), v);
    var f3 := SetFlag(g, id, t);
    assert Castling(f3, id, t) == Castling(f, id, t);
  }

  /** An en-passant capture empties the tile behind the target and removes the piece that stood there. */
  lemma MovedPassing(f: Fields, id: Id, t: Sq, opp: int, promo: char)
    requires Applicable(f, id, t, opp) && TakesPassing(f, id, t)
    ensures var e := Behind(f, id, t);
      var g := Moved(f, id, t, opp, promo);
      InBoard(e.x, e.y) && g.board[e.x][e.y] == None &&
      (f.board[e.x][e.y].Some? ==> f.board[e.x][e.y] != Some(id) && !Live(At(g), f.board[e.x][e.y].value))
  {
    var e := Behind(f, id, t);
    PassantKeeps(f, id, t, opp);
    if f.board[e.x][e.y].Some? {
      assert PieceOf(At(f), f.board[e.x][e.y].value).at == e;
    }
    var g := Captured(f, id, t, opp);
    var f3 := SetFlag(g, id, t);
    assert Castling(f3, id, t) == Castling(f, id, t);
  }

  /** The en-passant flag ends up raised exactly when a pawn moved two ranks. */
  lemma MovedFlag(f: Fields, id: Id, t: Sq, opp: int, promo: char)
    requires Applicable(f, id, t, opp)
    ensures var p := PieceOf(At(f), id);
      Moved(f, id, t, opp, promo).enPassant == (p.kind == 'P' && Abs(p.at.y - t.y) == 2)
  {
  }

  /** A king-side castling as it stands after the remaining steps. */
  lemma PlacedCastlesShort(g: Fields, id: Id, t: Sq, promo: char)
    requires Placeable(g, id, t) && CastleTarget(g, id, t) && Castling(g, id, t) && t.x == 6
    ensures var team := PieceOf(At(g), id).team;
      var r := Home(team);
      var h := Placed(g, id, t, promo);
      0 <= team < 2 && Live(At(h), Id(team, 7)) &&
      h.board[5][r] == Some(Id(team, 7)) && h.board[7][r] == None &&
      PieceOf(At(h), Id(team, 7)) == PieceOf(At(g), Id(team, 7)).(at := Sq(5, r), moved := true)
  {
    var f3 := SetFlag(g, id, t);
    assert Castling(f3, id, t) == Castling(g, id, t);
    var p := PieceOf(At(g), id);
    assert p.at != Sq(5, Home(p.team));
  }

  /** A queen-side castling as it stands after the remaining steps. */
  lemma PlacedCastlesLong(g: Fields, id: Id, t: Sq, promo: char)
    requires Placeable(g, id, t) && CastleTarget(g, id, t) && Castling(g, id, t) && t.x != 6
    ensures var team := PieceOf(At(g), id).team;
      var r := Home(team);
      var h := Placed(g, id, t, promo);
      0 <= team < 2 && Live(At(h), Id(team, 0)) && Live(At(h), Id(team, 7)) &&
      t.x == 2 && h.board[3][r] == Some(Id(team, 0)) && h.board[0][r] == None &&
      PieceOf(At(h), Id(team, 0)) == PieceOf(At(g), Id(team, 0)).(at := Sq(3, r)) &&
      PieceOf(At(h), Id(team, 7)).moved
  {
    var f3 := SetFlag(g, id, t);
    assert Castling(f3, id, t) == Castling(g, id, t);
    var p := PieceOf(At(g), id);
    var r := Home(p.team);
    var f4 := CastleRook(f3, id, t);
    assert f4.board[3][r] == Some(Id(p.team, 0)) && f4.board[0][r] == None &&
      PieceOf(At(f4), Id(p.team, 0)) == PieceOf(At(g), Id(p.team, 0)).(at := Sq(3, r)) && PieceOf(At(f4), Id(p.team, 7)).moved;
    assert p.at != Sq(3, r);
  }

  /**
   * Castling king-side puts the rook of slot 7 on the f-file square, marked
   * as moved, and empties the h-file corner. Castling queen-side puts the
   * rook of slot 0 on the d-file square and empties the a-file corner, but
   * marks the piece of slot 7 as moved and leaves slot 0's flag as it was.
   */
  lemma MovedCastles(f: Fields, id: Id, t: Sq, opp: int, promo: char)
    requires Movable(f, id, t, opp) && RookHome(f, id, t) && Castling(f, id, t)
    ensures (MovableApplicable(f, id, t, opp);
      var team := PieceOf(At(f), id).team;
      var r := Home(team);
      var g := Moved(f, id, t, opp, promo);
      0 <= team < 2 && Live(At(g), Id(team, 7)) &&
      if t.x == 6 then
        g.board[5][r] == Some(Id(team, 7)) && g.board[7][r] == None &&
        PieceOf(At(g), Id(team, 7)) == PieceOf(At(f), Id(team, 7)).(at := Sq(5, r), moved := true)
      else
        t.x == 2 && Live(At(g), Id(team, 0)) && g.board[3][r] == Some(Id(team, 0)) && g.board[0][r] == None &&
        PieceOf(At(g), Id(team, 0)) == PieceOf(At(f), Id(team, 0)).(at := Sq(3, r)) &&
        PieceOf(At(g), Id(team, 7)).moved)
  {
    MovableTarget(f, id, t, opp);
    var g := Captured(f, id, t, opp);
    assert Castling(g, id, t) && g == f;
    if t.x == 6 {
      PlacedCastlesShort(g, id, t, promo);
    } else {
      PlacedCastlesLong(g, id, t, promo);
    }
  }

  /** The tiles the castling branch writes: the rook's corner and its new square. */
  function CastleTiles(g: Fields, id: Id, t: Sq): set<Sq>
    requires Shaped(At(g)) && Live(At(g), id)
  {
    var r := Home(PieceOf(At(g), id).team);
    if Castling(g, id, t) then (if t.x == 6 then {Sq(7, r), Sq(5, r)} else {Sq(0, r), Sq(3, r)}) else {}
  }

  /** The steps after the captures write only the origin, the target and the castling tiles, and only the mover's and the castling slots. */
  lemma PlacedKeeps(g: Fields, id: Id, t: Sq, promo: char)
    requires Placeable(g, id, t)
    ensures var h := Placed(g, id, t, promo);
      var p := PieceOf(At(g), id);
      (forall x, y | InBoard(x, y) && Sq(x, y) != p.at && Sq(x, y) != t && Sq(x, y) !in CastleTiles(g, id, t) ::
         h.board[x][y] == g.board[x][y]) &&
      (forall s, i | 0 <= s < 2 && 0 <= i < 16 && Id(s, i) != id && !(Castling(g, id, t) && s == p.team && (i == 0 || i == 7)) ::
         h.pieces[s][i] == g.pieces[s][i])
  {
    var f3 := SetFlag(g, id, t);
    assert Castling(f3, id, t) == Castling(g, id, t);
  }

  /** The tiles a move may write: origin, target, the tile behind an en-passant target, and a castling's corner and rook square. */
  function Touched(f: Fields, id: Id, t: Sq): (r: set<Sq>)
    requires Shaped(At(f)) && Live(At(f), id) && InBoard(t.x, t.y)
    ensures PieceOf(At(f), id).at in r && t in r
  {
    {PieceOf(At(f), id).at, t} + (if TakesPassing(f, id, t) then {Behind(f, id, t)} else {}) + CastleTiles(f, id, t)
  }

  /**
   * Nothing else changes: every tile outside `Touched` keeps its piece, and
   * every piece standing outside it keeps its record, except for the pieces
   * of slots 0 and 7 of a castling team.
   */
  lemma MovedKeeps(f: Fields, id: Id, t: Sq, opp: int, promo: char)
    requires Applicable(f, id, t, opp)
    ensures var g := Moved(f, id, t, opp, promo);
      var team := PieceOf(At(f), id).team;
      (forall x, y | InBoard(x, y) && Sq(x, y) !in Touched(f, id, t) :: g.board[x][y] == f.board[x][y]) &&
      (forall s, i | 0 <= s < 2 && 0 <= i < 16 && f.pieces[s][i].Some? && Id(s, i) != id &&
         f.pieces[s][i].value.at !in Touched(f, id, t) && !(Castling(f, id, t) && s == team && (i == 0 || i == 7)) ::
         g.pieces[s][i] == f.pieces[s][i])
  {
    var g := Captured(f, id, t, opp);
    assert Castling(g, id, t) == Castling(f, id, t) && CastleTiles(g, id, t) == CastleTiles(f, id, t);
    PlacedKeeps(g, id, t, promo);
    CapturedKeepsOthers(f, id, t, opp);
  }

  /** The captures write only the tile behind an en-passant target, and only the slots of the pieces on the target and behind it. */
  lemma CapturedKeepsOthers(f: Fields, id: Id, t: Sq, opp: int)
    requires Applicable(f, id, t, opp)
    ensures var g := Captured(f, id, t, opp);
      (forall x, y | InBoard(x, y) && Sq(x, y) !in Touched(f, id, t) :: g.board[x][y] == f.board[x][y]) &&
      (forall s, i | 0 <= s < 2 && 0 <= i < 16 && f.pieces[s][i].Some? && f.pieces[s][i].value.at !in Touched(f, id, t) ::
         g.pieces[s][i] == f.pieces[s][i])
  {
    if f.board[t.x][t.y].Some? {
      assert PieceOf(At(f), f.board[t.x][t.y].value).at == t;
    }
    if TakesPassing(f, id, t) {
      var e := Behind(f, id, t);
      if f.board[e.x][e.y].Some? {
        assert PieceOf(At(f), f.board[e.x][e.y].value).at == e;
      }
    }
  }

  // ---------------------------------------------------------------------
  // What the record says
  // ---------------------------------------------------------------------

  /** A concatenation is empty exactly when each of its parts is. */
  lemma {:induction false} ConcatEmpty(parts: seq<string>)
    ensures Fen.Concat(parts) == "" <==> forall j | 0 <= j < |parts| :: parts[j] == ""
  {
    if parts != [] {
      var init := parts[..|parts| - 1];
      ConcatEmpty(init);
      assert forall j | 0 <= j < |init| :: init[j] == parts[j];
    }
  }

  /** Parts of at most one file or rank character each concatenate to at most one character per part, each a file or a rank. */
  lemma {:induction false} ConcatHints(parts: seq<string>)
    requires forall j | 0 <= j < |parts| :: |parts[j]| <= 1 && forall i | 0 <= i < |parts[j]| :: TrialGame.IsHint(parts[j][i])
    ensures |Fen.Concat(parts)| <= |parts|
    ensures forall i | 0 <= i < |Fen.Concat(parts)| :: TrialGame.IsHint(Fen.Concat(parts)[i])
  {
    if parts != [] {
      var init, last := parts[..|parts| - 1], parts[|parts| - 1];
      assert forall j | 0 <= j < |init| :: init[j] == parts[j];
      ConcatHints(init);
      var h := Fen.Concat(init);
      assert forall i | 0 <= i < |h + last| :: (h + last)[i] == if i < |h| then h[i] else last[i - |h|];
    }
  }

  /** The disambiguation is empty exactly when no rival in slots `0 .. n-1` lists the target. */
  lemma HintsEmpty(pos: Position, id: Id, t: Sq, n: nat)
    requires Ready(pos, id, true) && Rivals(pos, id) && n <= 16
    ensures Hints(pos, id, t, n) == "" <==> forall j | 0 <= j < n :: !Rival(pos, id, t, j)
  {
    var slots := HintSlots(pos, id, t)[..n];
    ConcatEmpty(slots);
    assert forall j | 0 <= j < n :: slots[j] == HintAt(pos, id, t, j) && (slots[j] == "" <==> !Rival(pos, id, t, j));
  }

  /** The disambiguation holds at most one character per slot looked at, each a file or a rank. */
  lemma HintsChars(pos: Position, id: Id, t: Sq, n: nat)
    requires Ready(pos, id, true) && Rivals(pos, id) && n <= 16
    ensures |Hints(pos, id, t, n)| <= n
    ensures forall i | 0 <= i < |Hints(pos, id, t, n)| :: TrialGame.IsHint(Hints(pos, id, t, n)[i])
  {
    var slots := HintSlots(pos, id, t)[..n];
    assert forall j | 0 <= j < n :: slots[j] == HintAt(pos, id, t, j);
    ConcatHints(slots);
  }

  /** A typed piece move recorded with at most one hint decomposes into its letter with its hint and the target's name. */
  lemma PieceRecord(letter: char, hints: string, capture: bool, t: Sq, check: bool, turn: nat)
    requires TrialGame.IsPieceLetter(letter) && |hints| <= 1 && InBoard(t.x, t.y)
    requires forall i | 0 <= i < |hints| :: TrialGame.IsHint(hints[i])
    ensures Decompose(Record([letter] + hints, capture, t, check), turn) == Some(TrialGame.Typed([letter] + hints, SquareName(t)))
  {
    var hint := if |hints| == 1 then Some(hints[0]) else None;
    assert hints == if hint.Some? then [hint.value] else [];
    assert Record([letter] + hints, capture, t, check) == TrialGame.PieceText(letter, hint, capture, t, check);
    TrialGame.DecomposePieceText(letter, hint, capture, t, check);
  }

  /**
   * The record of a move of a king, queen, rook, bishop or knight with at
   * most one rival decomposes, as typed input, into its letter with its
   * hint and the target square's name.
   */
  lemma PieceRecordDecomposes(f: Fields, id: Id, t: Sq, opp: int, promo: char, turn: nat)
    requires Playable(f, id, t, opp, promo) && TrialGame.IsPieceLetter(PieceOf(At(f), id).kind)
    requires |Hints(At(f), id, t, 16)| <= 1
    ensures Decompose(MoveText(f, id, t, opp, promo), turn) ==
      Some(TrialGame.Typed([PieceOf(At(f), id).kind] + Hints(At(f), id, t, 16), SquareName(t)))
  {
    MovableApplicable(f, id, t, opp);
    HintsChars(At(f), id, t, 16);
    PieceRecord(PieceOf(At(f), id).kind, Hints(At(f), id, t, 16), f.board[t.x][t.y].Some?, t,
      Checks(f, id, t, opp, promo), turn);
  }

  /** A castling is recorded as a king move to its target: with no hint and no 'x', as the typed castling of its side decomposes. */
  lemma CastleRecord(t: Sq, check: bool, turn: nat)
    requires t == Sq(6, Home(turn % 2)) || t == Sq(2, Home(turn % 2))
    ensures Decompose(Record("K", false, t, check), turn) == Decompose(if t.x == 6 then "O-O" else "O-O-O", turn)
  {
    PieceRecord('K', "", false, t, check, turn);
    assert ['K'] + "" == "K";
    DecomposeCastles(turn);
  }

  /** A listed castling lands on the empty g- or c-square of the king's back rank. */
  lemma CastleSquare(f: Fields, id: Id, t: Sq)
    requires Ready(At(f), id, true) && t in Targets(At(f), id, true) && Castling(f, id, t)
    ensures f.board[t.x][t.y] == None
    ensures t == Sq(6, Home(PieceOf(At(f), id).team)) || t == Sq(2, Home(PieceOf(At(f), id).team))
  {
    CastlingQuiet(f, id, t);
    CastlesWithin(At(f), id);
  }

  /** A castling with no rival starts its record with the king's letter alone. */
  lemma CastleOpening(f: Fields, id: Id, t: Sq)
    requires Ready(At(f), id, true) && Rivals(At(f), id) && Castling(f, id, t) && Hints(At(f), id, t, 16) == ""
    ensures Opening(f, id, t) == "K"
  {
  }

  /** A recorded king-side castling decomposes as the typed `O-O` of its side does, and a queen-side one as `O-O-O`. */
  lemma CastleRecordDecomposes(f: Fields, id: Id, t: Sq, opp: int, promo: char, turn: nat)
    requires Playable(f, id, t, opp, promo) && Castling(f, id, t) && Hints(At(f), id, t, 16) == ""
    requires turn % 2 == PieceOf(At(f), id).team
    ensures Decompose(MoveText(f, id, t, opp, promo), turn) == Decompose(if t.x == 6 then "O-O" else "O-O-O", turn)
  {
    CastleSquare(f, id, t);
    CastleOpening(f, id, t);
    CastleRecord(t, Checks(f, id, t, opp, promo), turn);
  }

  /** A pawn push recorded with no hint decomposes into the pawn's file and the target's name. */
  lemma PushRecord(from: Sq, t: Sq, check: bool, turn: nat)
    requires InBoard(from.x, from.y) && InBoard(t.x, t.y) && from.x == t.x
    ensures Decompose(Record("", false, t, check), turn) == Some(TrialGame.Typed(SquareName(from)[..1], SquareName(t)))
  {
    assert Record("", false, t, check) == SquareName(t) + (if check then "+" else "");
    assert SquareName(from)[..1] == SquareName(t)[..1];
    TrialGame.DecomposePawnMove(t, check);
  }

  /** A pawn's listed move along its file lands on an empty tile. */
  lemma PushQuiet(pos: Position, id: Id, t: Sq)
    requires Ready(pos, id, true) && PieceOf(pos, id).kind == 'P' && PieceOf(pos, id).at.x == t.x
    requires t in Targets(pos, id, true)
    ensures pos.board[t.x][t.y] == None
  {
    PawnLegalTiles(pos, id, t);
  }

  /** The record of a pawn going straight with no rival decomposes, as typed input, into the pawn's file and the target square. */
  lemma PawnPushDecomposes(f: Fields, id: Id, t: Sq, opp: int, promo: char, turn: nat)
    requires Playable(f, id, t, opp, promo) && PieceOf(At(f), id).kind == 'P' && PieceOf(At(f), id).at.x == t.x
    requires Hints(At(f), id, t, 16) == ""
    ensures Decompose(MoveText(f, id, t, opp, promo), turn) ==
      Some(TrialGame.Typed(SquareName(PieceOf(At(f), id).at)[..1], SquareName(t)))
  {
    PushQuiet(At(f), id, t);
    assert Opening(f, id, t) == "";
    PushRecord(PieceOf(At(f), id).at, t, Checks(f, id, t, opp, promo), turn);
  }

  /** A pawn changing file with no rival starts its record with its file alone. */
  lemma PawnOpening(f: Fields, id: Id, t: Sq) returns (file: char)
    requires Ready(At(f), id, true) && Rivals(At(f), id) && Hints(At(f), id, t, 16) == ""
    requires PieceOf(At(f), id).kind == 'P' && PieceOf(At(f), id).at.x != t.x
    ensures file == SquareName(PieceOf(At(f), id).at)[0] && IsFile(file) && Opening(f, id, t) == [file]
  {
    file := SquareName(PieceOf(At(f), id).at)[0];
  }

  /** A pawn capture recorded with no hint decomposes into the pawn's file and the target's name. */
  lemma TakeRecord(file: char, t: Sq, check: bool, turn: nat)
    requires IsFile(file) && InBoard(t.x, t.y)
    ensures Decompose(Record([file], true, t, check), turn) == Some(TrialGame.Typed([file], SquareName(t)))
  {
    assert Record([file], true, t, check) == [file, 'x'] + SquareName(t) + (if check then "+" else "");
    TrialGame.DecomposePawnCapture(file, t, check);
  }

  /** The record of a pawn taking a piece on the target with no rival decomposes into the pawn's file and the target square. */
  lemma PawnCaptureDecomposes(f: Fields, id: Id, t: Sq, opp: int, promo: char, turn: nat)
    requires Playable(f, id, t, opp, promo) && PieceOf(At(f), id).kind == 'P' && PieceOf(At(f), id).at.x != t.x
    requires f.board[t.x][t.y].Some? && Hints(At(f), id, t, 16) == ""
    ensures Decompose(MoveText(f, id, t, opp, promo), turn) ==
      Some(TrialGame.Typed([SquareName(PieceOf(At(f), id).at)[0]], SquareName(t)))
  {
    var file := PawnOpening(f, id, t);
    TakeRecord(file, t, Checks(f, id, t, opp, promo), turn);
  }

  /** A pawn's diagonal step recorded without an 'x' is none of the typed forms. */
  lemma SideStepRecord(file: char, t: Sq, check: bool, turn: nat)
    requires IsFile(file) && InBoard(t.x, t.y)
    ensures Decompose(Record([file], false, t, check), turn) == None
  {
    var text := Record([file], false, t, check);
    assert text == [file] + SquareName(t) + (if check then "+" else "");
    assert TrialGame.Unchecked(text) == [file] + SquareName(t);
    assert !TrialGame.IsPieceLetter(file);
  }

  /**
   * An en-passant capture is recorded without its 'x' (`ed6`), which is
   * none of the typed forms, so its record does not decompose.
   */
  lemma PassantRecordUnreadable(f: Fields, id: Id, t: Sq, opp: int, promo: char, turn: nat)
    requires Playable(f, id, t, opp, promo) && TakesPassing(f, id, t) && Hints(At(f), id, t, 16) == ""
    ensures Decompose(MoveText(f, id, t, opp, promo), turn) == None
  {
    var file := PawnOpening(f, id, t);
    SideStepRecord(file, t, Checks(f, id, t, opp, promo), turn);
  }

  // ---------------------------------------------------------------------
  // The game
  // ---------------------------------------------------------------------

  class Game {
    var turn: nat
    var board: seq<seq<Option<Id>>>
    var pieces: seq<seq<Option<Piece>>>
    var moveList: seq<string>
    var enPassant: bool

    function Pos(): Position
      reads this
    {
      Position(board, pieces, Passing(moveList, enPassant))
    }

    /** Game(): the tiles, the back ranks in slots 0-7 and the pawns in slots 8-15, each tile pointing at its piece, nothing moved. */
    constructor ()
      ensures turn == 0 && moveList == [] && !enPassant
      ensures Pos() == Position(StartBoard(), StartPieces(), Off)
    {
      turn := 0;
      moveList := [];
      enPassant := false;
      board := seq(8, i => seq(8, k => None));
      pieces := [seq(16, i => None), seq(16, i => None)];
      new;
      for i := 0 to 8
        invariant Shaped(Pos()) && board == seq(8, i => seq(8, k => None)) && turn == 0 && moveList == [] && !enPassant
        invariant forall s, j | 0 <= s < 2 && 0 <= j < 16 :: pieces[s][j] == if j < i then Some(StartPiece(s, j)) else None
      {
        pieces := SetSlot(pieces, Id(0, i), Some(Piece(TrialGame.BackRank[i], 0, Sq(i, 0), false)));
        pieces := SetSlot(pieces, Id(1, i), Some(Piece(TrialGame.BackRank[i], 1, Sq(i, 7), false)));
      }
      PlacePawns();
    }

    /** The pawn loop of `Game()`: slots 8-15 and the back-rank and pawn tiles of each file. */
    method PlacePawns()
      requires Shaped(Pos()) && board == seq(8, i => seq(8, k => None))
      requires forall s, j | 0 <= s < 2 && 0 <= j < 16 :: pieces[s][j] == if j < 8 then Some(StartPiece(s, j)) else None
      modifies this
      ensures board == StartBoard() && pieces == StartPieces()
      ensures turn == old(turn) && moveList == old(moveList) && enPassant == old(enPassant)
    {
      for i := 0 to 8
        invariant Shaped(Pos()) && turn == old(turn) && moveList == old(moveList) && enPassant == old(enPassant)
        invariant forall s, j | 0 <= s < 2 && 0 <= j < 16 :: pieces[s][j] == if j < 8 + i then Some(StartPiece(s, j)) else None
        invariant forall x, y | InBoard(x, y) :: board[x][y] == if x < i then StartCell(x, y) else None
      {
        pieces := SetSlot(pieces, Id(0, 8 + i), Some(Piece('P', 0, Sq(i, 1), false)));
        pieces := SetSlot(pieces, Id(1, 8 + i), Some(Piece('P', 1, Sq(i, 6), false)));
        board := SetCell(board, i, 0, Some(Id(0, i)));
        board := SetCell(board, i, 1, Some(Id(0, 8 + i)));
        board := SetCell(board, i, 6, Some(Id(1, 8 + i)));
        board := SetCell(board, i, 7, Some(Id(1, i)));
      }
      forall x | 0 <= x < 8
        ensures board[x] == StartBoard()[x]
      {
        assert forall y | 0 <= y < 8 :: board[x][y] == StartBoard()[x][y];
      }
      forall s | 0 <= s < 2
        ensures pieces[s] == StartPieces()[s]
      {
        assert forall j | 0 <= j < 16 :: pieces[s][j] == StartPieces()[s][j];
      }
    }

    /** checkMate: the side to move is in check, and only then is it asked for its legal moves, of which it has none. */
    method CheckMate() returns (r: bool)
      requires SideReady(Pos(), turn % 2, true)
      modifies this
      ensures unchanged(this)
      ensures r <==> InCheck(Pos(), turn % 2) && AllTargets(Pos(), turn % 2, true, 16) == {}
    {
      r := CheckCheck(turn % 2);
      if r {
        var moves := GetMoves(turn % 2, true);
        SquaresEmpty(moves);
        r := |moves| == 0;
      }
    }

    /** moveCheck: try the move, ask whether the mover's king is attacked, and undo the trial. */
    method MoveCheck(id: Id, t: Sq) returns (ok: bool)
      requires Valid(Pos()) && Live(Pos(), id) && InBoard(t.x, t.y) && KingReady(Pos(), PieceOf(Pos(), id).team)
      modifies this
      decreases 1, 1
      ensures unchanged(this)
      ensures ok == Safe(Pos(), id, t)
    {
      var p := pieces[id.side][id.index].value;
      var originalTile := p.at;
      var originalPiece := board[t.x][t.y];
      board := SetCell(board, originalTile.x, originalTile.y, None);
      pieces := SetSlot(pieces, id, Some(p.(at := t)));
      board := SetCell(board, t.x, t.y, Some(id));
      assert Pos() == Trial(old(Pos()), id, t);
      var r := CheckCheck(p.team);
      pieces := SetSlot(pieces, id, Some(p));
      board := SetCell(board, originalTile.x, originalTile.y, Some(id));
      board := SetCell(board, t.x, t.y, originalPiece);
      SetCellRestore(old(board), originalTile, t, None, Some(id));
      SetSlotRestore(old(pieces), id, Some(p.(at := t)));
      ok := !r;
    }

    /** checkCheck: the other team's attack-mode list contains the tile of the piece in slot 4. */
    method CheckCheck(team: int) returns (r: bool)
      requires Linked(Pos()) && KingReady(Pos(), team)
      modifies this
      decreases 1, 0
      ensures unchanged(this)
      ensures r == InCheck(Pos(), team)
    {
      var moves := GetMoves(Opponent(team), false);
      AllTargetsPseudo(Pos(), Opponent(team), 16);
      SquaresIn(moves, pieces[team][4].value.at);
      r := pieces[team][4].value.at in moves;
    }

    /** GetMoves(team, legalMoves): the lists of every non-null piece of `team`, concatenated. */
    method GetMoves(team: int, legal: bool) returns (moves: seq<Sq>)
      requires SideReady(Pos(), team, legal)
      modifies this
      decreases Level(legal), 6
      ensures unchanged(this)
      ensures Squares(moves) == AllTargets(Pos(), team, legal, 16)
    {
      moves := [];
      for i := 0 to 16
        invariant unchanged(this)
        invariant Squares(moves) == AllTargets(Pos(), team, legal, i)
      {
        if pieces[team][i].Some? {
          var ms := PieceMoves(Id(team, i), legal);
          SquaresAppend(moves, ms);
          moves := moves + ms;
        }
      }
    }

    /** Piece.GetMoves(checkLegality): the tiles the piece in slot `id` lists. */
    method PieceMoves(id: Id, legal: bool) returns (ts: seq<Sq>)
      requires Ready(Pos(), id, legal)
      modifies this
      decreases Level(legal), 5
      ensures unchanged(this)
      ensures Squares(ts) == Targets(Pos(), id, legal)
    {
      var p := pieces[id.side][id.index].value;
      ghost var pos := Pos();
      ghost var k := Kept(pos, id, legal);
      match p.kind
      case 'K' =>
        ts := KingMoves(id, p, legal, pos, k);
        if legal {
          ts := KingCastles(id, p, pos, ts);
        }
      case 'Q' =>
        ts := QueenMoves(id, p, legal, pos, k);
      case 'R' =>
        ts := RookMoves(id, p, legal, pos, k);
      case 'B' =>
        ts := BishopMoves(id, p, legal, pos, k);
      case 'N' =>
        ts := KnightMoves(id, p, legal, pos, k);
      case 'P' =>
        ts := PawnMoves(id, p, legal, pos, k);
      case _ =>
        ts := [];
    }

    /** One visited tile of the king, a slider or the knight: listed in attack mode, or when not own and safe. */
    method Visit(id: Id, p: Piece, legal: bool, ghost pos: Position, ghost k: set<Sq>, x: int, y: int, ts: seq<Sq>) returns (ts': seq<Sq>)
      requires Pos() == pos && pos in ReadyFor(id, legal) && pos.pieces[id.side][id.index] == Some(p) && p.kind != 'P' && InBoard(x, y)
      requires k == Kept(pos, id, legal)
      modifies this
      decreases Level(legal), 1
      ensures unchanged(this)
      ensures Squares(ts') == Squares(ts) + Jump(x, y) * k
    {
      var t := Sq(x, y);
      var ok := true;
      if legal {
        ok := MoveCheck(id, t);
      }
      KeptIff(pos, id, legal, t);
      ts' := ts;
      if !legal || (TileCheck(Pos(), p.team, t) != 0 && ok) {
        SquaresSnoc(ts, t);
        ts' := ts + [t];
      }
    }

    /**
     * One visited tile of a pawn. Straight ahead it must be empty; on a
     * diagonal, the en-passant flag must be up with the last record's first
     * character naming the tile's file, or the tile must hold an enemy.
     */
    method PawnVisit(id: Id, p: Piece, legal: bool, ghost pos: Position, ghost k: set<Sq>, t: Sq, ts: seq<Sq>) returns (ts': seq<Sq>)
      requires Pos() == pos && pos in ReadyFor(id, legal) && pos.pieces[id.side][id.index] == Some(p) && p.kind == 'P' && InBoard(t.x, t.y)
      requires k == Kept(pos, id, legal)
      modifies this
      decreases Level(legal), 1
      ensures unchanged(this)
      ensures Squares(ts') == Squares(ts) + {t} * k
    {
      KeptIff(pos, id, legal, t);
      ts' := ts;
      var listed := true;
      if legal {
        var tc := TileCheck(Pos(), p.team, t);
        var wanted;
        if t.x == p.at.x {
          wanted := tc == 2;
        } else {
          wanted := (enPassant && (moveList[|moveList| - 1][0] as int - 'a' as int) - (t.x - p.at.x) == p.at.x) || tc == 1;
        }
        listed := false;
        if wanted {
          listed := MoveCheck(id, t);
        }
      }
      if listed {
        SquaresSnoc(ts, t);
        ts' := ts + [t];
      }
    }

    /**
     * Step `i` of one ray: when the square is on the board and the ray's bit
     * is set, an occupied square subtracts the bit, and the square is listed
     * in attack mode, or in legal mode when not own and safe.
     */
    method Probe(id: Id, p: Piece, legal: bool, ghost pos: Position, ghost k: set<Sq>, dx: int, dy: int, bit: int, i: nat,
                 control: set<int>, ts: seq<Sq>)
      returns (control': set<int>, ts': seq<Sq>)
      requires Pos() == pos && pos in ReadyFor(id, legal) && pos.pieces[id.side][id.index] == Some(p) && p.kind != 'P'
      requires k == Kept(pos, id, legal)
      modifies this
      decreases Level(legal), 2
      ensures unchanged(this)
      ensures Probes(pos.board, p.at.x, p.at.y, dx, dy, bit, i, control, control')
      ensures Squares(ts') == Squares(ts) + Seen(p.at.x, p.at.y, dx, dy, bit, i, control) * k
    {
      control', ts' := control, ts;
      var x, y := Walk(p.at.x, dx, i), Walk(p.at.y, dy, i);
      if 0 <= x < 8 && 0 <= y < 8 && bit in control {
        var tc := TileCheck(Pos(), p.team, Sq(x, y));
        if tc != 2 {
          control' := control - {bit};
        }
        ts' := Visit(id, p, legal, pos, k, x, y, ts);
      }
    }

    /** The king's neighbouring squares, column by column. */
    method KingMoves(id: Id, p: Piece, legal: bool, ghost pos: Position, ghost k: set<Sq>) returns (ts: seq<Sq>)
      requires Pos() == pos && pos in ReadyFor(id, legal) && pos.pieces[id.side][id.index] == Some(p) && p.kind == 'K'
      requires k == Kept(pos, id, legal)
      modifies this
      decreases Level(legal), 4
      ensures unchanged(this)
      ensures Squares(ts) == KingSquares(p.at.x, p.at.y) * k
    {
      ts := [];
      for i := Max(0, p.at.x - 1) to Min(p.at.x + 1, 7) + 1
        invariant unchanged(this)
        invariant Squares(ts) == KingColumns(p.at.x, p.at.y, i, k)
      {
        ts := KingRow(id, p, legal, pos, k, i, ts);
      }
      KingScan(p.at.x, p.at.y, k);
    }

    /** The inner king loop over the rows of column `i`, skipping the king's own square. */
    method KingRow(id: Id, p: Piece, legal: bool, ghost pos: Position, ghost k: set<Sq>, i: int, ts: seq<Sq>) returns (ts': seq<Sq>)
      requires Pos() == pos && pos in ReadyFor(id, legal) && pos.pieces[id.side][id.index] == Some(p) && p.kind == 'K'
      requires k == Kept(pos, id, legal)
      requires Max(0, p.at.x - 1) <= i <= Min(p.at.x + 1, 7)
      modifies this
      decreases Level(legal), 3
      ensures unchanged(this)
      ensures Squares(ts') == Squares(ts) + KingColumn(p.at.x, p.at.y, i, Min(p.at.y + 1, 7) + 1, k)
    {
      ts' := ts;
      for j := Max(0, p.at.y - 1) to Min(p.at.y + 1, 7) + 1
        invariant unchanged(this)
        invariant Squares(ts') == Squares(ts) + KingColumn(p.at.x, p.at.y, i, j, k)
      {
        if !(i == p.at.x && j == p.at.y) {
          ts' := Visit(id, p, legal, pos, k, i, j, ts');
        }
      }
    }

    /**
     * The castling part of the king's list, run in legal mode only: an
     * unmoved king not in check asks for the other team's attack-mode list
     * and tests the queen side, then the king side.
     */
    method KingCastles(id: Id, p: Piece, ghost pos: Position, ts: seq<Sq>) returns (ts': seq<Sq>)
      requires Pos() == pos && pos in ReadyFor(id, true) && pos.pieces[id.side][id.index] == Some(p) && p.kind == 'K'
      modifies this
      decreases 2, 4
      ensures unchanged(this)
      ensures Squares(ts') == Squares(ts) + Castles(pos, id)
    {
      assert Ready(pos, id, true);
      ts' := ts;
      if p.moved {
        return;
      }
      var inCheck := CheckCheck(p.team);
      if inCheck {
        return;
      }
      var other := if p.team == 0 then 1 else 0;
      var opponentMoves := GetMoves(other, false);
      AllTargetsPseudo(pos, other, 16);
      var queenSide := CastleTest(p, pos, opponentMoves, 0, 3, 2);
      if queenSide {
        SquaresSnoc(ts', Sq(2, Home(p.team)));
        ts' := ts' + [Sq(2, Home(p.team))];
      }
      var kingSide := CastleTest(p, pos, opponentMoves, 7, 5, 6);
      if kingSide {
        SquaresSnoc(ts', Sq(6, Home(p.team)));
        ts' := ts' + [Sq(6, Home(p.team))];
      }
    }

    /** One castling branch's test: the piece in slot `slot` and the back-rank squares on files `pass` and `land`. */
    method CastleTest(p: Piece, ghost pos: Position, moves: seq<Sq>, slot: int, pass: int, land: int) returns (b: bool)
      requires Pos() == pos && Linked(pos) && KingReady(pos, p.team)
      requires 0 <= slot < 16 && 0 <= pass < 8 && 0 <= land < 8
      requires Squares(moves) == Attacks(pos, Opponent(p.team), 16)
      ensures b == Castle(pos, p.team, slot, pass, land)
    {
      var r := if p.team == 0 then 0 else 7;
      SquaresIn(moves, Sq(pass, r));
      SquaresIn(moves, Sq(land, r));
      b := pieces[p.team][slot].Some? && !pieces[p.team][slot].value.moved
        && TileCheck(Pos(), p.team, Sq(pass, r)) == 2 && Sq(pass, r) !in moves
        && TileCheck(Pos(), p.team, Sq(land, r)) == 2 && Sq(land, r) !in moves;
    }

    method QueenMoves(id: Id, p: Piece, legal: bool, ghost pos: Position, ghost k: set<Sq>) returns (ts: seq<Sq>)
      requires Pos() == pos && pos in ReadyFor(id, legal) && pos.pieces[id.side][id.index] == Some(p) && p.kind == 'Q'
      requires k == Kept(pos, id, legal)
      modifies this
      decreases Level(legal), 4
      ensures unchanged(this)
      ensures Squares(ts) == QueenReach(pos.board, p.at.x, p.at.y, 6) * k
    {
      var control := AllBits;
      ts := [];
      AllBitsOpen(pos.board, p.at.x, p.at.y);
      for i := 1 to 7
        invariant unchanged(this)
        invariant control in QueenControl(pos.board, p.at.x, p.at.y, i - 1)
        invariant Squares(ts) == QueenReach(pos.board, p.at.x, p.at.y, i - 1) * k
      {
        control, ts := QueenIteration(id, p, legal, pos, k, i, control, ts);
      }
    }

    /** One iteration of the queen loop, its eight probes in the source's order. */
    method QueenIteration(id: Id, p: Piece, legal: bool, ghost pos: Position, ghost k: set<Sq>, i: nat, control: set<int>, ts: seq<Sq>)
      returns (control': set<int>, ts': seq<Sq>)
      requires Pos() == pos && pos in ReadyFor(id, legal) && pos.pieces[id.side][id.index] == Some(p) && p.kind == 'Q' && i >= 1
      requires k == Kept(pos, id, legal)
      requires control in QueenControl(pos.board, p.at.x, p.at.y, i - 1)
      requires Squares(ts) == QueenReach(pos.board, p.at.x, p.at.y, i - 1) * k
      modifies this
      decreases Level(legal), 3
      ensures unchanged(this)
      ensures control' in QueenControl(pos.board, p.at.x, p.at.y, i)
      ensures Squares(ts') == QueenReach(pos.board, p.at.x, p.at.y, i) * k
    {
      ghost var c0, a := control, Squares(ts);
      control', ts' := control, ts;
      control', ts' := Probe(id, p, legal, pos, k, 1, 0, 0x01, i, control', ts');
      ghost var c1 := control';
      control', ts' := Probe(id, p, legal, pos, k, 1, 1, 0x80, i, control', ts');
      ghost var c2 := control';
      control', ts' := Probe(id, p, legal, pos, k, 1, -1, 0x40, i, control', ts');
      ghost var c3 := control';
      control', ts' := Probe(id, p, legal, pos, k, -1, 0, 0x02, i, control', ts');
      ghost var c4 := control';
      control', ts' := Probe(id, p, legal, pos, k, -1, 1, 0x20, i, control', ts');
      ghost var c5 := control';
      control', ts' := Probe(id, p, legal, pos, k, -1, -1, 0x10, i, control', ts');
      ghost var c6 := control';
      control', ts' := Probe(id, p, legal, pos, k, 0, 1, 0x04, i, control', ts');
      ghost var c7 := control';
      control', ts' := Probe(id, p, legal, pos, k, 0, -1, 0x08, i, control', ts');
      ghost var c8 := control';
      QueenRound(pos.board, p.at.x, p.at.y, i, k, a, c0, c1, c2, c3, c4, c5, c6, c7, c8);
    }

    method RookMoves(id: Id, p: Piece, legal: bool, ghost pos: Position, ghost k: set<Sq>) returns (ts: seq<Sq>)
      requires Pos() == pos && pos in ReadyFor(id, legal) && pos.pieces[id.side][id.index] == Some(p) && p.kind == 'R'
      requires k == Kept(pos, id, legal)
      modifies this
      decreases Level(legal), 4
      ensures unchanged(this)
      ensures Squares(ts) == LineReach(pos.board, p.at.x, p.at.y, 6) * k
    {
      var control := AllBits;
      ts := [];
      AllBitsOpen(pos.board, p.at.x, p.at.y);
      for i := 1 to 7
        invariant unchanged(this)
        invariant LineFlags(pos.board, p.at.x, p.at.y, i - 1, control)
        invariant Squares(ts) == LineReach(pos.board, p.at.x, p.at.y, i - 1) * k
      {
        ghost var c0, a := control, Squares(ts);
        control, ts := Probe(id, p, legal, pos, k, 1, 0, 0x01, i, control, ts);
        ghost var c1 := control;
        control, ts := Probe(id, p, legal, pos, k, -1, 0, 0x02, i, control, ts);
        ghost var c2 := control;
        control, ts := Probe(id, p, legal, pos, k, 0, 1, 0x04, i, control, ts);
        ghost var c3 := control;
        control, ts := Probe(id, p, legal, pos, k, 0, -1, 0x08, i, control, ts);
        ghost var c4 := control;
        LineRound(pos.board, p.at.x, p.at.y, i, k, a, c0, c1, c2, c3, c4);
      }
    }

    method BishopMoves(id: Id, p: Piece, legal: bool, ghost pos: Position, ghost k: set<Sq>) returns (ts: seq<Sq>)
      requires Pos() == pos && pos in ReadyFor(id, legal) && pos.pieces[id.side][id.index] == Some(p) && p.kind == 'B'
      requires k == Kept(pos, id, legal)
      modifies this
      decreases Level(legal), 4
      ensures unchanged(this)
      ensures Squares(ts) == DiagonalReach(pos.board, p.at.x, p.at.y, 6) * k
    {
      var control := AllBits;
      ts := [];
      AllBitsOpen(pos.board, p.at.x, p.at.y);
      for i := 1 to 7
        invariant unchanged(this)
        invariant DiagonalFlags(pos.board, p.at.x, p.at.y, i - 1, control)
        invariant Squares(ts) == DiagonalReach(pos.board, p.at.x, p.at.y, i - 1) * k
      {
        ghost var c0, a := control, Squares(ts);
        control, ts := Probe(id, p, legal, pos, k, 1, 1, 0x80, i, control, ts);
        ghost var c1 := control;
        control, ts := Probe(id, p, legal, pos, k, 1, -1, 0x40, i, control, ts);
        ghost var c2 := control;
        control, ts := Probe(id, p, legal, pos, k, -1, 1, 0x20, i, control, ts);
        ghost var c3 := control;
        control, ts := Probe(id, p, legal, pos, k, -1, -1, 0x10, i, control, ts);
        ghost var c4 := control;
        DiagonalRound(pos.board, p.at.x, p.at.y, i, k, a, c0, c1, c2, c3, c4);
      }
    }

    /** The eight jumps in the source's order; the last pair is guarded by `x - 1 < 8`, as written. */
    method KnightMoves(id: Id, p: Piece, legal: bool, ghost pos: Position, ghost k: set<Sq>) returns (ts: seq<Sq>)
      requires Pos() == pos && pos in ReadyFor(id, legal) && pos.pieces[id.side][id.index] == Some(p) && p.kind == 'N'
      requires k == Kept(pos, id, legal)
      modifies this
      decreases Level(legal), 4
      ensures unchanged(this)
      ensures Squares(ts) == KnightJumps(p.at.x, p.at.y) * k
    {
      ts := KnightTwo(id, p, legal, pos, k, p.at.x + 2 < 8, p.at.x - 2 >= 0, 0, []);
      ts := KnightTwo(id, p, legal, pos, k, p.at.x + 1 < 8, p.at.x - 1 < 8, 2, ts);
      KnightScan(p.at.x, p.at.y, k);
    }

    /** The knight's columns `n` and `n + 1`, each under its own guard. */
    method KnightTwo(id: Id, p: Piece, legal: bool, ghost pos: Position, ghost k: set<Sq>, guard: bool, guard': bool, n: nat, ts: seq<Sq>)
      returns (ts': seq<Sq>)
      requires Pos() == pos && pos in ReadyFor(id, legal) && pos.pieces[id.side][id.index] == Some(p) && p.kind == 'N'
      requires k == Kept(pos, id, legal)
      requires guard <==> 0 <= p.at.x + KnightDx(n) < 8
      requires guard' <==> 0 <= p.at.x + KnightDx(n + 1) < 8
      requires Squares(ts) == KnightChain(p.at.x, p.at.y, n, k)
      modifies this
      decreases Level(legal), 3
      ensures unchanged(this)
      ensures Squares(ts') == KnightChain(p.at.x, p.at.y, n + 2, k)
    {
      ts' := KnightPair(id, p, legal, pos, k, guard, n, ts);
      ts' := KnightPair(id, p, legal, pos, k, guard', n + 1, ts');
    }

    /** The jumps into the knight's column `n` when `guard` holds: rows y + dy, then y - dy, each when on the board. */
    method KnightPair(id: Id, p: Piece, legal: bool, ghost pos: Position, ghost k: set<Sq>, guard: bool, n: nat, ts: seq<Sq>)
      returns (ts': seq<Sq>)
      requires Pos() == pos && pos in ReadyFor(id, legal) && pos.pieces[id.side][id.index] == Some(p) && p.kind == 'N'
      requires k == Kept(pos, id, legal)
      requires guard <==> 0 <= p.at.x + KnightDx(n) < 8
      modifies this
      decreases Level(legal), 2
      ensures unchanged(this)
      ensures Squares(ts') == Squares(ts) + KnightColumn(p.at.x, p.at.y, n, k)
    {
      var nx, y, dy := p.at.x + KnightDx(n), p.at.y, KnightDy(n);
      ts' := ts;
      if guard {
        if y + dy < 8 {
          ts' := Visit(id, p, legal, pos, k, nx, y + dy, ts');
        }
        if y - dy >= 0 {
          ts' := Visit(id, p, legal, pos, k, nx, y - dy, ts');
        }
      }
    }

    /** When the rank ahead is on the board: straight ahead, two ahead while unmoved, then the diagonals x+1 and x-1. */
    method PawnMoves(id: Id, p: Piece, legal: bool, ghost pos: Position, ghost k: set<Sq>) returns (ts: seq<Sq>)
      requires Pos() == pos && pos in ReadyFor(id, legal) && pos.pieces[id.side][id.index] == Some(p) && p.kind == 'P'
      requires k == Kept(pos, id, legal)
      modifies this
      decreases Level(legal), 4
      ensures unchanged(this)
      ensures Squares(ts) == PawnSquares(p) * k
    {
      var y := p.at.y;
      var direction := if p.team == 0 then 1 else -1;
      ts := [];
      if y + 1 * direction < 8 && y + 1 * direction >= 0 {
        ts := PawnAhead(id, p, legal, pos, k);
        ts := PawnSides(id, p, legal, pos, k, ts);
      }
      PawnScan(p, k);
    }

    /** The pawn's push, then its double push while unmoved. */
    method PawnAhead(id: Id, p: Piece, legal: bool, ghost pos: Position, ghost k: set<Sq>) returns (ts: seq<Sq>)
      requires Pos() == pos && pos in ReadyFor(id, legal) && pos.pieces[id.side][id.index] == Some(p) && p.kind == 'P'
      requires k == Kept(pos, id, legal) && 0 <= p.at.y + Dir(p.team) < 8
      modifies this
      decreases Level(legal), 3
      ensures unchanged(this)
      ensures Squares(ts) == {Sq(p.at.x, p.at.y + Dir(p.team))} * k +
        (if !p.moved then {Sq(p.at.x, p.at.y + 2 * Dir(p.team))} * k else {})
    {
      assert Ready(pos, id, legal);
      var x, y, direction := p.at.x, p.at.y, Dir(p.team);
      ts := PawnVisit(id, p, legal, pos, k, Sq(x, y + 1 * direction), []);
      if !p.moved {
        ts := PawnVisit(id, p, legal, pos, k, Sq(x, y + 2 * direction), ts);
      }
    }

    /** The pawn's diagonals ahead, x+1 then x-1, each when on the board. */
    method PawnSides(id: Id, p: Piece, legal: bool, ghost pos: Position, ghost k: set<Sq>, ts: seq<Sq>) returns (ts': seq<Sq>)
      requires Pos() == pos && pos in ReadyFor(id, legal) && pos.pieces[id.side][id.index] == Some(p) && p.kind == 'P'
      requires k == Kept(pos, id, legal) && 0 <= p.at.y + Dir(p.team) < 8
      modifies this
      decreases Level(legal), 3
      ensures unchanged(this)
      ensures Squares(ts') == Squares(ts) +
        (if p.at.x + 1 < 8 then {Sq(p.at.x + 1, p.at.y + Dir(p.team))} * k else {}) +
        (if p.at.x - 1 >= 0 then {Sq(p.at.x - 1, p.at.y + Dir(p.team))} * k else {})
    {
      assert Ready(pos, id, legal);
      var x, y, direction := p.at.x, p.at.y, Dir(p.team);
      ts' := ts;
      if x + 1 < 8 {
        ts' := PawnVisit(id, p, legal, pos, k, Sq(x + 1, y + 1 * direction), ts');
      }
      if x - 1 >= 0 {
        ts' := PawnVisit(id, p, legal, pos, k, Sq(x - 1, y + 1 * direction), ts');
      }
    }

    /** The fields `movePiece` writes. */
    function State(): Fields
      reads this
    {
      Fields(board, pieces, moveList, enPassant)
    }

    /**
     * movePiece: refuse a target the piece does not list; otherwise record
     * the move and play it. The promotion letter the console prompt would
     * read is the parameter `promo`; `opp` is `(turn + 1) % 2`.
     */
    method MovePiece(id: Id, t: Sq, promo: char) returns (ok: bool)
      requires Ready(Pos(), id, true) && InBoard(t.x, t.y) && IsPromotion(promo)
      requires t in Targets(Pos(), id, true) ==> Playable(State(), id, t, (turn + 1) % 2, promo)
      modifies this
      ensures ok == (t in Targets(old(Pos()), id, true))
      ensures !ok ==> unchanged(this)
      ensures ok ==> turn == old(turn) && State() == Play(old(State()), id, t, old((turn + 1) % 2), promo)
    {
      ghost var f := State();
      var opp := (turn + 1) % 2;
      assert t in Targets(Pos(), id, true) ==> f in PlayableFor(id, t, opp, promo);
      var moves := PieceMoves(id, true);
      SquaresIn(moves, t);
      if t !in moves {
        return false;
      }
      Apply(id, t, opp, promo, f);
      ok := true;
    }

    /** The start of the record: the lead, then the disambiguation loop. */
    method StartRecord(id: Id, t: Sq, ghost f: Fields) returns (moveString: string)
      requires State() == f && Ready(At(f), id, true) && Rivals(At(f), id)
      modifies this
      ensures unchanged(this)
      ensures moveString == Opening(f, id, t)
    {
      var piece := pieces[id.side][id.index].value;
      moveString := Lead(piece, t);
      var hints := Disambiguate(id, t, Pos());
      moveString := moveString + hints;
    }

    /** The disambiguation loop: one hint for each other piece of the mover's team and type that lists the target. */
    method Disambiguate(id: Id, t: Sq, ghost pos: Position) returns (hints: string)
      requires Pos() == pos && Ready(pos, id, true) && Rivals(pos, id)
      modifies this
      ensures unchanged(this)
      ensures hints == Hints(pos, id, t, 16)
    {
      var piece := pieces[id.side][id.index].value;
      hints := "";
      for j := 0 to 16
        invariant unchanged(this)
        invariant hints == Hints(pos, id, t, j)
      {
        HintsStep(pos, id, t, j);
        var q := pieces[piece.team][j];
        if q.Some? && Id(piece.team, j) != id && q.value.kind == piece.kind {
          RivalReady(pos, id, j);
          var ms := PieceMoves(Id(piece.team, j), true);
          SquaresIn(ms, t);
          if t in ms {
            hints := hints + [HintChar(q.value, piece)];
          }
        }
      }
    }

    /** A listed move: the record's start, the move itself, the target's name, and the check test. */
    method Apply(id: Id, t: Sq, opp: int, promo: char, ghost f: Fields)
      requires State() == f && f in PlayableFor(id, t, opp, promo)
      modifies this
      ensures turn == old(turn) && State() == Play(f, id, t, opp, promo)
    {
      assert Playable(f, id, t, opp, promo);
      var moveString := StartRecord(id, t, f);
      MovableApplicable(f, id, t, opp);
      var takes := Steps(id, t, opp, promo, f);
      MovedLinked(f, id, t, opp, promo);
      Announce(opp, moveString + (if takes then "x" else "") + SquareName(t));
    }

    /** The capture, the en-passant branch, then the remaining steps. */
    method Steps(id: Id, t: Sq, opp: int, promo: char, ghost f: Fields) returns (takes: bool)
      requires State() == f && Applicable(f, id, t, opp)
      modifies this
      ensures takes == f.board[t.x][t.y].Some?
      ensures turn == old(turn) && State() == Moved(f, id, t, opp, promo)
    {
      PassantKeeps(f, id, t, opp);
      takes := CaptureStep(t, opp);
      PassantStep(id, t, opp);
      ghost var g := Captured(f, id, t, opp);
      assert State() == g;
      assert Castling(g, id, t) == Castling(f, id, t);
      Place(id, t, promo, g);
    }

    /** The flag, the castling branch, the relocation and the promotion. */
    method Place(id: Id, t: Sq, promo: char, ghost g: Fields)
      requires State() == g && Placeable(g, id, t)
      modifies this`board, this`pieces, this`enPassant
      ensures State() == Placed(g, id, t, promo)
    {
      var piece := pieces[id.side][id.index].value;
      enPassant := piece.kind == 'P' && Abs(piece.at.y - t.y) == 2;
      ghost var f3 := SetFlag(g, id, t);
      assert State() == f3 && Castling(f3, id, t) == Castling(g, id, t);
      CastleStep(id, t);
      ghost var f4 := CastleRook(f3, id, t);
      RelocateStep(id, t);
      PromoteStep(id, t, promo);
      assert State() == Promote(Relocate(f4, id, t), id, t, promo);
    }

    /** The removal scan `for (i = 0; i <= 16; i++)`: the first slot of `opp` holding the object `o` becomes null. */
    method Scan(opp: int, o: Option<Id>)
      requires Shaped(Pos()) && 0 <= opp < 2 && Findable(State(), opp, o)
      modifies this`pieces
      ensures State() == Remove(old(State()), o)
    {
      var i := 0;
      while i <= 16
        invariant 0 <= i && pieces == old(pieces)
        invariant exists j | i <= j < 16 :: Matches(pieces, opp, j, o)
        decreases 16 - i
      {
        if Matches(pieces, opp, i, o) {
          SetSlotSame(pieces, Id(opp, i));
          pieces := SetSlot(pieces, Id(opp, i), None);
          break;
        }
        i := i + 1;
      }
    }

    /** A capture: `x` is due when the target holds a piece, which the scan removes from the array of `opp`. */
    method CaptureStep(t: Sq, opp: int) returns (takes: bool)
      requires Linked(Pos()) && InBoard(t.x, t.y) && 0 <= opp < 2
      requires board[t.x][t.y].Some? ==> Findable(State(), opp, board[t.x][t.y])
      modifies this`pieces
      ensures takes == old(board[t.x][t.y]).Some? && State() == Capture(old(State()), t)
    {
      takes := board[t.x][t.y].Some?;
      if takes {
        Scan(opp, board[t.x][t.y]);
      }
    }

    /** The en-passant branch: a pawn stepping aside onto an empty tile removes the piece behind it and clears that tile. */
    method PassantStep(id: Id, t: Sq, opp: int)
      requires Shaped(Pos()) && Live(Pos(), id) && InBoard(t.x, t.y) && 0 <= opp < 2 && PassantReady(State(), id, t, opp)
      modifies this`board, this`pieces
      ensures State() == PassantCapture(old(State()), id, t)
    {
      var piece := pieces[id.side][id.index].value;
      if piece.kind == 'P' && board[t.x][t.y].None? && Abs(t.x - piece.at.x) == 1 {
        var a := if piece.team == 0 then -1 else 1;
        Scan(opp, board[t.x][t.y + a]);
        board := SetCell(board, t.x, t.y + a, None);
      }
    }

    /** The castling branch: the rook's corner is cleared and the rook placed beside the king. */
    method CastleStep(id: Id, t: Sq)
      requires Shaped(Pos()) && Live(Pos(), id) && CastleReady(State(), id, t)
      modifies this`board, this`pieces
      ensures State() == CastleRook(old(State()), id, t)
    {
      var piece := pieces[id.side][id.index].value;
      if piece.kind == 'K' && Abs(piece.at.x - t.x) == 2 {
        var r := if piece.team == 0 then 0 else 7;
        if t.x == 6 {
          board := SetCell(board, 7, r, None);
          board := SetCell(board, 5, r, Some(Id(piece.team, 7)));
          var rook := pieces[piece.team][7].value;
          pieces := SetSlot(pieces, Id(piece.team, 7), Some(rook.(at := Sq(5, r), moved := true)));
        } else {
          board := SetCell(board, 0, r, None);
          board := SetCell(board, 3, r, Some(Id(piece.team, 0)));
          var rook := pieces[piece.team][0].value;
          pieces := SetSlot(pieces, Id(piece.team, 0), Some(rook.(at := Sq(3, r))));
          pieces := SetSlot(pieces, Id(piece.team, 7), Some(pieces[piece.team][7].value.(moved := true)));
        }
      }
    }

    /** The piece leaves its tile for the target, which points at it, and is marked as moved. */
    method RelocateStep(id: Id, t: Sq)
      requires Shaped(Pos()) && Live(Pos(), id) && InBoard(PieceOf(Pos(), id).at.x, PieceOf(Pos(), id).at.y) && InBoard(t.x, t.y)
      modifies this`board, this`pieces
      ensures State() == Relocate(old(State()), id, t)
    {
      var piece := pieces[id.side][id.index].value;
      board := SetCell(board, piece.at.x, piece.at.y, None);
      board := SetCell(board, t.x, t.y, Some(id));
      pieces := SetSlot(pieces, id, Some(piece.(at := t, moved := true)));
    }

    /** A pawn on its last rank takes the chosen letter. */
    method PromoteStep(id: Id, t: Sq, promo: char)
      requires Shaped(Pos()) && Live(Pos(), id)
      modifies this`pieces
      ensures State() == Promote(old(State()), id, t, promo)
    {
      var piece := pieces[id.side][id.index].value;
      if piece.kind == 'P' && ((piece.team == 0 && t.y == 7) || (piece.team == 1 && t.y == 0)) {
        pieces := SetSlot(pieces, id, Some(piece.(kind := promo)));
      }
    }

    /** The end of the record: `+` when `opp` is now in check; the record joins the move list. */
    method Announce(opp: int, moveString: string)
      requires Linked(Pos()) && KingReady(Pos(), opp)
      modifies this
      ensures turn == old(turn) && board == old(board) && pieces == old(pieces) && enPassant == old(enPassant)
      ensures moveList == old(moveList) + [moveString + (if InCheck(old(Pos()), opp) then "+" else "")]
    {
      ghost var pos := Pos();
      var check := CheckCheck(opp);
      assert check == InCheck(pos, opp);
      var record := moveString;
      if check {
        record := record + "+";
      }
      moveList := moveList + [record];
      assert record == moveString + (if InCheck(pos, opp) then "+" else "");
      assert pos == old(Pos());
    }
  }
}
