/**
 * The first revision of the board (ChessEngine/Program.cs): tiles are value
 * structs kept in an 8 by 8 array, a piece records its kind letter, its team
 * (0 moves up the board, anything else moves down) and a copy of the tile it
 * was created on, and move generation lists pseudo-legal destination tiles.
 *
 * In the source the generator reads the board through a static field; here
 * the board is a parameter.
 */
module Draft {
  import opened Geometry

  datatype Tile = Tile(x: int, y: int, piece: Option<Piece>)
  datatype Piece = Piece(kind: char, team: int, tile: Tile)

  /** The back rank, from the a-file to the h-file, for both teams. */
  const BackRank: string := "RNBQKBNR"

  class Board {
    const tiles: array2<Tile>

    ghost predicate Valid()
      reads this, tiles
    {
      tiles.Length0 == 8 && tiles.Length1 == 8 &&
      forall i, k | InBoard(i, k) :: tiles[i, k].x == i && tiles[i, k].y == k
    }

    constructor ()
      ensures Valid() && fresh(tiles)
      ensures forall i, k | InBoard(i, k) :: tiles[i, k] == Tile(i, k, None)
    {
      tiles := new Tile[8, 8];
      new;
      var i := 0;
      while i < 8
        invariant 0 <= i <= 8
        invariant forall a, b | 0 <= a < i && 0 <= b < 8 :: tiles[a, b] == Tile(a, b, None)
      {
        var k := 0;
        while k < 8
          invariant 0 <= k <= 8
          invariant forall a, b | 0 <= a < i && 0 <= b < 8 :: tiles[a, b] == Tile(a, b, None)
          invariant forall b | 0 <= b < k :: tiles[i, b] == Tile(i, b, None)
        {
          tiles[i, k] := Tile(i, k, None);
          k := k + 1;
        }
        i := i + 1;
      }
    }
  }

  class Game {
    const board: Board

    /**
     * The starting position. Every piece keeps a copy of its tile taken
     * before the piece was stored in it, so that copy holds no piece.
     */
    constructor ()
      ensures board.Valid() && fresh(board) && fresh(board.tiles)
      ensures forall i, k | InBoard(i, k) :: board.tiles[i, k].x == i && board.tiles[i, k].y == k
      ensures forall i | 0 <= i < 8 ::
        board.tiles[i, 1].piece == Some(Piece('P', 0, Tile(i, 1, None))) &&
        board.tiles[i, 6].piece == Some(Piece('P', 1, Tile(i, 6, None))) &&
        board.tiles[i, 0].piece == Some(Piece(BackRank[i], 0, Tile(i, 0, None))) &&
        board.tiles[i, 7].piece == Some(Piece(BackRank[i], 1, Tile(i, 7, None)))
      ensures forall i, k | InBoard(i, k) && 2 <= k < 6 :: board.tiles[i, k].piece == None
    {
      board := new Board();
      new;
      var tiles := board.tiles;
      var i := 0;
      while i < 8
        invariant 0 <= i <= 8
        invariant board.Valid()
        invariant forall a, b | InBoard(a, b) :: tiles[a, b].x == a && tiles[a, b].y == b
        invariant forall a, b | InBoard(a, b) && (i <= a || b !in {1, 6}) :: tiles[a, b].piece == None
        invariant forall a | 0 <= a < i ::
          tiles[a, 1].piece == Some(Piece('P', 0, Tile(a, 1, None))) &&
          tiles[a, 6].piece == Some(Piece('P', 1, Tile(a, 6, None)))
      {
        tiles[i, 1] := tiles[i, 1].(piece := Some(Piece('P', 0, tiles[i, 1])));
        tiles[i, 6] := tiles[i, 6].(piece := Some(Piece('P', 1, tiles[i, 6])));
        i := i + 1;
      }
      i := 0;
      while i < 8
        invariant 0 <= i <= 8
        invariant board.Valid()
        invariant forall a, b | InBoard(a, b) :: tiles[a, b].x == a && tiles[a, b].y == b
        invariant forall a, b | InBoard(a, b) && 2 <= b < 6 :: tiles[a, b].piece == None
        invariant forall a, b | InBoard(a, b) && i <= a && b in {0, 7} :: tiles[a, b].piece == None
        invariant forall a | 0 <= a < 8 ::
          tiles[a, 1].piece == Some(Piece('P', 0, Tile(a, 1, None))) &&
          tiles[a, 6].piece == Some(Piece('P', 1, Tile(a, 6, None)))
        invariant forall a | 0 <= a < i ::
          tiles[a, 0].piece == Some(Piece(BackRank[a], 0, Tile(a, 0, None))) &&
          tiles[a, 7].piece == Some(Piece(BackRank[a], 1, Tile(a, 7, None)))
      {
        tiles[i, 0] := tiles[i, 0].(piece := Some(Piece(BackRank[i], 0, tiles[i, 0])));
        tiles[i, 7] := tiles[i, 7].(piece := Some(Piece(BackRank[i], 1, tiles[i, 7])));
        i := i + 1;
      }
    }
  }

  // ---------------------------------------------------------------------
  // What move generation sees of the board, and the moves it should list
  // ---------------------------------------------------------------------

  /** `g` records the team standing on every square of `b`. */
  ghost predicate Sees(b: Board, g: seq<seq<Option<int>>>)
    reads b, b.tiles
  {
    b.Valid() && IsGrid(g) &&
    forall i, k | InBoard(i, k) ::
      g[i][k] == if b.tiles[i, k].piece.Some? then Some(b.tiles[i, k].piece.value.team) else None
  }

  /** The team standing on every square. */
  ghost function Occupancy(b: Board): (g: seq<seq<Option<int>>>)
    reads b, b.tiles
    requires b.Valid()
    ensures Sees(b, g)
  {
    seq(8, i requires 0 <= i < 8 reads b, b.tiles =>
      seq(8, k requires 0 <= k < 8 reads b, b.tiles =>
        if b.tiles[i, k].piece.Some? then Some(b.tiles[i, k].piece.value.team) else None))
  }

  predicate Own(g: seq<seq<Option<int>>>, t: Sq, team: int)
    requires IsGrid(g)
  {
    InBoard(t.x, t.y) && g[t.x][t.y] == Some(team)
  }

  predicate Enemy(g: seq<seq<Option<int>>>, t: Sq, team: int)
    requires IsGrid(g)
  {
    InBoard(t.x, t.y) && g[t.x][t.y].Some? && g[t.x][t.y].value != team
  }

  predicate Empty(g: seq<seq<Option<int>>>, t: Sq)
    requires IsGrid(g)
  {
    InBoard(t.x, t.y) && g[t.x][t.y].None?
  }

  function NotOwn(g: seq<seq<Option<int>>>, s: set<Sq>, team: int): set<Sq>
    requires IsGrid(g)
  {
    set t | t in s && !Own(g, t, team)
  }

  /** The squares a slider of `team` on (x, y) lists along one direction in `n` iterations. */
  function Ray(g: seq<seq<Option<int>>>, x: int, y: int, team: int, dx: int, dy: int, n: nat): set<Sq>
    requires IsGrid(g)
  {
    NotOwn(g, Reached(g, x, y, dx, dy, n), team)
  }

  /** What a rook-like loop of `n` iterations lists along the file and the rank. */
  function RookRays(g: seq<seq<Option<int>>>, x: int, y: int, team: int, n: nat): set<Sq>
    requires IsGrid(g)
  {
    Ray(g, x, y, team, 1, 0, n) + Ray(g, x, y, team, -1, 0, n) +
    Ray(g, x, y, team, 0, -1, n) + Ray(g, x, y, team, 0, 1, n)
  }

  /** What a bishop-like loop of `n` iterations lists along the two diagonals. */
  function BishopRays(g: seq<seq<Option<int>>>, x: int, y: int, team: int, n: nat): set<Sq>
    requires IsGrid(g)
  {
    Ray(g, x, y, team, 1, -1, n) + Ray(g, x, y, team, 1, 1, n) +
    Ray(g, x, y, team, -1, -1, n) + Ray(g, x, y, team, -1, 1, n)
  }

  /** The rook loop runs seven iterations. */
  function RookMoves(g: seq<seq<Option<int>>>, x: int, y: int, team: int): set<Sq>
    requires IsGrid(g)
  {
    RookRays(g, x, y, team, 7)
  }

  /** The bishop loop runs seven iterations. */
  function BishopMoves(g: seq<seq<Option<int>>>, x: int, y: int, team: int): set<Sq>
    requires IsGrid(g)
  {
    BishopRays(g, x, y, team, 7)
  }

  /** The queen loop walks all eight directions for seven iterations. */
  function QueenMoves(g: seq<seq<Option<int>>>, x: int, y: int, team: int): set<Sq>
    requires IsGrid(g)
  {
    RookRays(g, x, y, team, 7) + BishopRays(g, x, y, team, 7)
  }

  function KingMoves(g: seq<seq<Option<int>>>, x: int, y: int, team: int): (r: set<Sq>)
    requires IsGrid(g) && InBoard(x, y)
    ensures forall t :: t in r <==>
      InBoard(t.x, t.y) && -1 <= t.x - x <= 1 && -1 <= t.y - y <= 1 && t != Sq(x, y) && !Own(g, t, team)
  {
    NotOwn(g, KingSquares(x, y), team)
  }

  /** A knight's jump to (x, y): listed when on the board and not held by `team`. */
  function Jump(g: seq<seq<Option<int>>>, team: int, x: int, y: int): set<Sq>
    requires IsGrid(g)
  {
    if InBoard(x, y) && !Own(g, Sq(x, y), team) then {Sq(x, y)} else {}
  }

  /** The eight jumps, in the order the source tries them. */
  function KnightMoves(g: seq<seq<Option<int>>>, x: int, y: int, team: int): set<Sq>
    requires IsGrid(g)
  {
    Jump(g, team, x - 2, y - 1) + Jump(g, team, x - 2, y + 1) +
    Jump(g, team, x - 1, y - 2) + Jump(g, team, x - 1, y + 2) +
    Jump(g, team, x + 1, y - 2) + Jump(g, team, x + 1, y + 2) +
    Jump(g, team, x + 2, y - 1) + Jump(g, team, x + 2, y + 1)
  }

  /** Knight destinations are exactly the on-board (1, 2) and (2, 1) offsets that no piece of its team holds. */
  lemma KnightMovesIff(g: seq<seq<Option<int>>>, x: int, y: int, team: int, t: Sq)
    requires IsGrid(g)
    ensures t in KnightMoves(g, x, y, team) <==>
      InBoard(t.x, t.y) && !Own(g, t, team) && KnightOffset(t.x - x, t.y - y)
  {
    assert t in KnightMoves(g, x, y, team) <==>
      (InBoard(t.x, t.y) && !Own(g, t, team) &&
       (t == Sq(x - 2, y - 1) || t == Sq(x - 2, y + 1) || t == Sq(x - 1, y - 2) || t == Sq(x - 1, y + 2) ||
        t == Sq(x + 1, y - 2) || t == Sq(x + 1, y + 2) || t == Sq(x + 2, y - 1) || t == Sq(x + 2, y + 1)));
  }

  /** Team 0 pushes towards rank 8, every other team towards rank 1. */
  function Dir(team: int): int {
    if team == 0 then 1 else -1
  }

  predicate OnStartRank(y: int, dir: int) {
    (y == 1 && dir == 1) || (y == 6 && dir == -1)
  }

  /**
   * Pawn destinations: the push onto an empty square, the double push from
   * the start rank when both squares are empty, and the diagonals that hold
   * an enemy piece.
   */
  function PawnMoves(g: seq<seq<Option<int>>>, x: int, y: int, team: int): set<Sq>
    requires IsGrid(g) && InBoard(x, y + Dir(team))
  {
    PawnPushes(g, x, y, Dir(team)) + PawnTakes(g, x - 1, y + Dir(team), team) + PawnTakes(g, x + 1, y + Dir(team), team)
  }

  /** The single push onto an empty square, followed from the start rank by the double push. */
  function PawnPushes(g: seq<seq<Option<int>>>, x: int, y: int, d: int): set<Sq>
    requires IsGrid(g) && InBoard(x, y + d)
  {
    if g[x][y + d].None? then
      {Sq(x, y + d)} + (if OnStartRank(y, d) && g[x][y + 2 * d].None? then {Sq(x, y + 2 * d)} else {})
    else {}
  }

  /** A diagonal square, when it holds an enemy. */
  function PawnTakes(g: seq<seq<Option<int>>>, x: int, y: int, team: int): set<Sq>
    requires IsGrid(g)
  {
    if Enemy(g, Sq(x, y), team) then {Sq(x, y)} else {}
  }

  /**
   * A pawn pushes only onto an empty square, pushes twice only from its
   * start rank over two empty squares, and takes diagonally only an enemy.
   */
  lemma PawnRules(g: seq<seq<Option<int>>>, x: int, y: int, team: int, t: Sq)
    requires IsGrid(g) && InBoard(x, y + Dir(team))
    ensures t in PawnMoves(g, x, y, team) <==>
      (t == Sq(x, y + Dir(team)) && Empty(g, t)) ||
      (t == Sq(x, y + 2 * Dir(team)) && OnStartRank(y, Dir(team)) && Empty(g, Sq(x, y + Dir(team))) && Empty(g, t)) ||
      ((t.x == x - 1 || t.x == x + 1) && t.y == y + Dir(team) && Enemy(g, t, team))
  {
  }

  /** What `getMoves` may be asked about: a piece on the board, and a pawn with a square ahead of it. */
  predicate CanGenerate(p: Piece) {
    InBoard(p.tile.x, p.tile.y) && (p.kind == 'P' ==> InBoard(p.tile.x, p.tile.y + Dir(p.team)))
  }

  /** The destinations `getMoves` lists for piece `p`. */
  function Moves(g: seq<seq<Option<int>>>, p: Piece): set<Sq>
    requires IsGrid(g) && CanGenerate(p)
  {
    var x, y := p.tile.x, p.tile.y;
    match p.kind
    case 'K' => KingMoves(g, x, y, p.team)
    case 'Q' => QueenMoves(g, x, y, p.team)
    case 'R' => RookMoves(g, x, y, p.team)
    case 'B' => BishopMoves(g, x, y, p.team)
    case 'N' => KnightMoves(g, x, y, p.team)
    case 'P' => PawnMoves(g, x, y, p.team)
    case _ => {}
  }

  // ---------------------------------------------------------------------
  // Properties of the destinations
  // ---------------------------------------------------------------------

  /** A square lies on a ray exactly when it is reached within `n` steps over empty squares. */
  lemma RayIff(g: seq<seq<Option<int>>>, x: int, y: int, team: int, dx: int, dy: int, n: nat, t: Sq)
    requires IsGrid(g)
    ensures t in Ray(g, x, y, team, dx, dy, n) <==>
      !Own(g, t, team) &&
      exists k :: 1 <= k <= n && t == Step(x, y, dx, dy, k) && InBoard(t.x, t.y) && Open(g, x, y, dx, dy, k - 1)
  {
    ReachedIff(g, x, y, dx, dy, n, t);
  }

  /**
   * Along a ray, the first occupied square is listed exactly when it holds an
   * enemy piece, and nothing beyond it is listed.
   */
  lemma RayStopsAtBlocker(g: seq<seq<Option<int>>>, x: int, y: int, team: int, dx: int, dy: int, k: nat)
    requires IsGrid(g) && IsDirection(dx, dy) && 1 <= k <= 7
    requires Taken(g, Walk(x, dx, k), Walk(y, dy, k)) && Open(g, x, y, dx, dy, k - 1)
    ensures Step(x, y, dx, dy, k) in Ray(g, x, y, team, dx, dy, 7) <==> Enemy(g, Step(x, y, dx, dy, k), team)
    ensures forall m | k < m :: Step(x, y, dx, dy, m) !in Ray(g, x, y, team, dx, dy, 7)
  {
    ReachedComplete(g, x, y, dx, dy, 7, k);
    forall m | k < m
      ensures Step(x, y, dx, dy, m) !in Ray(g, x, y, team, dx, dy, 7)
    {
      ReachedStops(g, x, y, dx, dy, 7, k, m);
    }
  }

  /** Every listed ray square is on the board, not held by the mover, and a whole number of steps from the origin. */
  lemma RayDirection(g: seq<seq<Option<int>>>, x: int, y: int, team: int, dx: int, dy: int, n: nat, t: Sq)
    requires IsGrid(g) && t in Ray(g, x, y, team, dx, dy, n)
    ensures InBoard(t.x, t.y) && !Own(g, t, team)
    ensures exists k :: 1 <= k <= n && t == Step(x, y, dx, dy, k)
  {
    ReachedOnRay(g, x, y, dx, dy, n, t);
  }

  /** Rook destinations share the rook's file or its rank, are not its own square, and hold no piece of its team. */
  lemma RookOnLines(g: seq<seq<Option<int>>>, x: int, y: int, team: int, t: Sq)
    requires IsGrid(g) && t in RookMoves(g, x, y, team)
    ensures (t.x == x) != (t.y == y)
    ensures InBoard(t.x, t.y) && !Own(g, t, team)
  {
    if t in Ray(g, x, y, team, 1, 0, 7) {
      RayDirection(g, x, y, team, 1, 0, 7, t);
    } else if t in Ray(g, x, y, team, -1, 0, 7) {
      RayDirection(g, x, y, team, -1, 0, 7, t);
    } else if t in Ray(g, x, y, team, 0, -1, 7) {
      RayDirection(g, x, y, team, 0, -1, 7, t);
    } else {
      RayDirection(g, x, y, team, 0, 1, 7, t);
    }
  }

  /** Bishop destinations lie on one of the bishop's diagonals, are not its own square, and hold no piece of its team. */
  lemma BishopOnDiagonals(g: seq<seq<Option<int>>>, x: int, y: int, team: int, t: Sq)
    requires IsGrid(g) && t in BishopMoves(g, x, y, team)
    ensures t.x - x == t.y - y || t.x - x == y - t.y
    ensures t != Sq(x, y)
    ensures InBoard(t.x, t.y) && !Own(g, t, team)
  {
    if t in Ray(g, x, y, team, 1, -1, 7) {
      RayDirection(g, x, y, team, 1, -1, 7, t);
    } else if t in Ray(g, x, y, team, 1, 1, 7) {
      RayDirection(g, x, y, team, 1, 1, 7, t);
    } else if t in Ray(g, x, y, team, -1, -1, 7) {
      RayDirection(g, x, y, team, -1, -1, 7, t);
    } else {
      RayDirection(g, x, y, team, -1, 1, 7, t);
    }
  }

  /** No piece is ever offered its own square or a square held by its own team. */
  lemma MovesAvoidOwn(g: seq<seq<Option<int>>>, p: Piece, t: Sq)
    requires IsGrid(g) && CanGenerate(p) && t in Moves(g, p)
    ensures InBoard(t.x, t.y) && !Own(g, t, p.team) && t != Sq(p.tile.x, p.tile.y)
  {
    var x, y := p.tile.x, p.tile.y;
    match p.kind
    case 'Q' =>
      if t in RookMoves(g, x, y, p.team) {
        RookOnLines(g, x, y, p.team, t);
      } else {
        BishopOnDiagonals(g, x, y, p.team, t);
      }
    case 'R' =>
      RookOnLines(g, x, y, p.team, t);
    case 'B' =>
      BishopOnDiagonals(g, x, y, p.team, t);
    case 'N' =>
      KnightMovesIff(g, x, y, p.team, t);
    case 'P' =>
      PawnRules(g, x, y, p.team, t);
    case _ =>
  }

  // ---------------------------------------------------------------------
  // The generator
  // ---------------------------------------------------------------------

  /** What step `n` of one ray lists. */
  function Next(g: seq<seq<Option<int>>>, x: int, y: int, team: int, dx: int, dy: int, n: nat): set<Sq>
    requires IsGrid(g) && n >= 1
  {
    NotOwn(g, NextOnRay(g, x, y, dx, dy, n), team)
  }

  /** One more iteration of a sliding loop adds what its step finds. */
  lemma RayStep(g: seq<seq<Option<int>>>, x: int, y: int, team: int, dx: int, dy: int, n: nat)
    requires IsGrid(g) && n >= 1
    ensures Ray(g, x, y, team, dx, dy, n) == Ray(g, x, y, team, dx, dy, n - 1) + Next(g, x, y, team, dx, dy, n)
  {
  }

  /** What one iteration of a rook-like loop lists. */
  function RookNext(g: seq<seq<Option<int>>>, x: int, y: int, team: int, n: nat): set<Sq>
    requires IsGrid(g) && n >= 1
  {
    Next(g, x, y, team, 1, 0, n) + Next(g, x, y, team, -1, 0, n) +
    Next(g, x, y, team, 0, -1, n) + Next(g, x, y, team, 0, 1, n)
  }

  /** What one iteration of a bishop-like loop lists. */
  function BishopNext(g: seq<seq<Option<int>>>, x: int, y: int, team: int, n: nat): set<Sq>
    requires IsGrid(g) && n >= 1
  {
    Next(g, x, y, team, 1, -1, n) + Next(g, x, y, team, 1, 1, n) +
    Next(g, x, y, team, -1, -1, n) + Next(g, x, y, team, -1, 1, n)
  }

  lemma RookRaysStep(g: seq<seq<Option<int>>>, x: int, y: int, team: int, n: nat)
    requires IsGrid(g) && n >= 1
    ensures RookRays(g, x, y, team, n) == RookRays(g, x, y, team, n - 1) + RookNext(g, x, y, team, n)
  {
    RayStep(g, x, y, team, 1, 0, n);
    RayStep(g, x, y, team, -1, 0, n);
    RayStep(g, x, y, team, 0, -1, n);
    RayStep(g, x, y, team, 0, 1, n);
  }

  lemma BishopRaysStep(g: seq<seq<Option<int>>>, x: int, y: int, team: int, n: nat)
    requires IsGrid(g) && n >= 1
    ensures BishopRays(g, x, y, team, n) == BishopRays(g, x, y, team, n - 1) + BishopNext(g, x, y, team, n)
  {
    RayStep(g, x, y, team, 1, -1, n);
    RayStep(g, x, y, team, 1, 1, n);
    RayStep(g, x, y, team, -1, -1, n);
    RayStep(g, x, y, team, -1, 1, n);
  }

  /** Regrouping of unions used when one loop iteration walks two families of rays. */
  lemma UnionStep(c: set<Sq>, a: set<Sq>, b: set<Sq>, na: set<Sq>, nb: set<Sq>, c1: set<Sq>, c2: set<Sq>)
    requires c == a + b && c1 == c + na && c2 == c1 + nb
    ensures c2 == (a + na) + (b + nb)
  {
  }

  /** Regrouping of the four sets one iteration adds. */
  lemma Regroup(a: set<Sq>, n1: set<Sq>, n2: set<Sq>, n3: set<Sq>, n4: set<Sq>)
    ensures a + n1 + n2 + n3 + n4 == a + (n1 + n2 + n3 + n4)
  {
  }

  /** Every listed tile is the board's own tile at its coordinates. */
  ghost predicate FromBoard(b: Board, ts: seq<Tile>)
    reads b, b.tiles
    requires b.Valid()
  {
    forall t | t in ts :: InBoard(t.x, t.y) && b.tiles[t.x, t.y] == t
  }

  /** The squares of the listed tiles. */
  function Coords(ts: seq<Tile>): set<Sq> {
    if ts == [] then {} else Coords(ts[..|ts| - 1]) + {Sq(ts[|ts| - 1].x, ts[|ts| - 1].y)}
  }

  lemma CoordsSnoc(ts: seq<Tile>, t: Tile)
    ensures Coords(ts + [t]) == Coords(ts) + {Sq(t.x, t.y)}
  {
    assert (ts + [t])[..|ts|] == ts;
  }

  lemma {:induction false} CoordsAppend(ts: seq<Tile>, us: seq<Tile>)
    ensures Coords(ts + us) == Coords(ts) + Coords(us)
  {
    if us == [] {
      assert ts + us == ts;
    } else {
      var n := |us| - 1;
      assert (ts + us)[..|ts + us| - 1] == ts + us[..n];
      CoordsAppend(ts, us[..n]);
    }
  }

  /**
   * Step `i` of one ray: the flag says whether the ray is still open; the
   * tile is appended when it is empty or holds an enemy, and an occupied
   * tile closes the ray.
   */
  function Probe(board: Board, ghost g: seq<seq<Option<int>>>, p: Piece, dx: int, dy: int, i: int, open: bool, ts: seq<Tile>): (r: (bool, seq<Tile>))
    reads board, board.tiles
    requires Sees(board, g) && i >= 1 && FromBoard(board, ts)
    requires open == Open(g, p.tile.x, p.tile.y, dx, dy, i - 1)
    ensures r.0 == Open(g, p.tile.x, p.tile.y, dx, dy, i)
    ensures FromBoard(board, r.1)
    ensures Coords(r.1) == Coords(ts) + Next(g, p.tile.x, p.tile.y, p.team, dx, dy, i)
  {
    var x, y := Walk(p.tile.x, dx, i), Walk(p.tile.y, dy, i);
    if open && 0 <= x < 8 && 0 <= y < 8 then
      var t := board.tiles[x, y];
      CoordsSnoc(ts, t);
      if t.piece == None then (true, ts + [t])
      else if t.piece.value.team != p.team then (false, ts + [t])
      else (false, ts)
    else (open, ts)
  }

  /** Appends the tile at (x, y) when it is on the board and not held by `team`. */
  function Visit(board: Board, ghost g: seq<seq<Option<int>>>, team: int, x: int, y: int, ts: seq<Tile>): (ts': seq<Tile>)
    reads board, board.tiles
    requires Sees(board, g) && FromBoard(board, ts)
    ensures FromBoard(board, ts')
    ensures Coords(ts') == Coords(ts) + Jump(g, team, x, y)
  {
    if 0 <= x < 8 && 0 <= y < 8 && (board.tiles[x, y].piece == None || board.tiles[x, y].piece.value.team != team) then
      CoordsSnoc(ts, board.tiles[x, y]);
      ts + [board.tiles[x, y]]
    else ts
  }

  /** Appends the tile at (x, y) when it is on the board and holds an enemy of `team`. */
  function Capture(board: Board, ghost g: seq<seq<Option<int>>>, team: int, x: int, y: int, ts: seq<Tile>): (ts': seq<Tile>)
    reads board, board.tiles
    requires Sees(board, g) && FromBoard(board, ts)
    ensures FromBoard(board, ts')
    ensures Coords(ts') == Coords(ts) + PawnTakes(g, x, y, team)
  {
    if 0 <= x < 8 && 0 <= y < 8 && board.tiles[x, y].piece.Some? && board.tiles[x, y].piece.value.team != team then
      CoordsSnoc(ts, board.tiles[x, y]);
      ts + [board.tiles[x, y]]
    else ts
  }

  /** `getMoves`: the pseudo-legal destination tiles of `p` on `board`. */
  method GetMoves(board: Board, p: Piece) returns (ts: seq<Tile>)
    requires board.Valid() && CanGenerate(p)
    ensures FromBoard(board, ts)
    ensures Coords(ts) == Moves(Occupancy(board), p)
  {
    ghost var g := Occupancy(board);
    var x, y := p.tile.x, p.tile.y;
    ts := [];
    match p.kind
    case 'K' =>
      ts := KingTiles(board, p);
    case 'Q' =>
      ts := QueenTiles(board, p);
    case 'R' =>
      ts := RookTiles(board, p);
    case 'B' =>
      ts := BishopTiles(board, p);
    case 'N' =>
      ts := KnightTiles(board, p);
    case 'P' =>
      ts := PawnTiles(board, p);
    case _ =>
  }

  /** A cell of the king's scan is listed unless it is the king's own square or holds a piece of its team. */
  function Cell(g: seq<seq<Option<int>>>, x: int, y: int, team: int, i: int, k: int): set<Sq>
    requires IsGrid(g)
  {
    if !(i == x && k == y) && !Own(g, Sq(i, k), team) then {Sq(i, k)} else {}
  }

  /** The cells of column `i` that the inner king loop lists before reaching row `k`. */
  function Column(g: seq<seq<Option<int>>>, x: int, y: int, team: int, i: int, k: int): set<Sq>
    requires IsGrid(g)
    decreases k - Max(y - 1, 0)
  {
    if k <= Max(y - 1, 0) then {} else Column(g, x, y, team, i, k - 1) + Cell(g, x, y, team, i, k - 1)
  }

  /** The cells that the outer king loop has listed before reaching column `i`. */
  function Columns(g: seq<seq<Option<int>>>, x: int, y: int, team: int, i: int): set<Sq>
    requires IsGrid(g)
    decreases i - Max(x - 1, 0)
  {
    if i <= Max(x - 1, 0) then {}
    else Columns(g, x, y, team, i - 1) + Column(g, x, y, team, i - 1, Min(y + 1, 7) + 1)
  }

  lemma {:induction false} ColumnIff(g: seq<seq<Option<int>>>, x: int, y: int, team: int, i: int, k: int, t: Sq)
    requires IsGrid(g)
    ensures t in Column(g, x, y, team, i, k) <==>
      t.x == i && Max(y - 1, 0) <= t.y < k && t != Sq(x, y) && !Own(g, t, team)
  {
    if k > Max(y - 1, 0) {
      ColumnIff(g, x, y, team, i, k - 1, t);
    }
  }

  lemma {:induction false} ColumnsIff(g: seq<seq<Option<int>>>, x: int, y: int, team: int, i: int, t: Sq)
    requires IsGrid(g)
    ensures t in Columns(g, x, y, team, i) <==>
      Max(x - 1, 0) <= t.x < i && Max(y - 1, 0) <= t.y <= Min(y + 1, 7) && t != Sq(x, y) && !Own(g, t, team)
  {
    if i > Max(x - 1, 0) {
      ColumnsIff(g, x, y, team, i - 1, t);
      ColumnIff(g, x, y, team, i - 1, Min(y + 1, 7) + 1, t);
    }
  }

  /** The two king loops list exactly the king's destinations. */
  lemma ColumnsAll(g: seq<seq<Option<int>>>, x: int, y: int, team: int)
    requires IsGrid(g) && InBoard(x, y)
    ensures Columns(g, x, y, team, Min(x + 1, 7) + 1) == KingMoves(g, x, y, team)
  {
    forall t
      ensures t in Columns(g, x, y, team, Min(x + 1, 7) + 1) <==> t in KingMoves(g, x, y, team)
    {
      ColumnsIff(g, x, y, team, Min(x + 1, 7) + 1, t);
    }
  }

  lemma Assoc(a: set<Sq>, b: set<Sq>, c: set<Sq>)
    ensures a + b + c == a + (b + c)
  {
  }

  method KingTiles(board: Board, p: Piece) returns (ts: seq<Tile>)
    requires board.Valid() && InBoard(p.tile.x, p.tile.y)
    ensures FromBoard(board, ts)
    ensures Coords(ts) == KingMoves(Occupancy(board), p.tile.x, p.tile.y, p.team)
  {
    ghost var g := Occupancy(board);
    var x, y := p.tile.x, p.tile.y;
    ts := [];
    for i := Max(x - 1, 0) to Min(x + 1, 7) + 1
      invariant FromBoard(board, ts)
      invariant Coords(ts) == Columns(g, x, y, p.team, i)
    {
      ts := KingColumn(board, g, p, i, ts);
    }
    ColumnsAll(g, x, y, p.team);
  }

  /** The inner loop of the king: the neighbours of the king in column `i`. */
  method KingColumn(board: Board, ghost g: seq<seq<Option<int>>>, p: Piece, i: int, ts: seq<Tile>) returns (ts': seq<Tile>)
    requires Sees(board, g) && InBoard(p.tile.x, p.tile.y) && FromBoard(board, ts)
    requires Max(p.tile.x - 1, 0) <= i <= Min(p.tile.x + 1, 7)
    ensures FromBoard(board, ts')
    ensures Coords(ts') == Coords(ts) + Column(g, p.tile.x, p.tile.y, p.team, i, Min(p.tile.y + 1, 7) + 1)
  {
    var x, y := p.tile.x, p.tile.y;
    ts' := ts;
    var k := Max(y - 1, 0);
    while k <= Min(y + 1, 7)
      invariant Max(y - 1, 0) <= k <= Min(y + 1, 7) + 1
      invariant FromBoard(board, ts')
      invariant Coords(ts') == Coords(ts) + Column(g, x, y, p.team, i, k)
    {
      Assoc(Coords(ts), Column(g, x, y, p.team, i, k), Cell(g, x, y, p.team, i, k));
      ts' := Neighbour(board, g, p, i, k, ts');
      k := k + 1;
    }
  }

  /** One cell of the king's scan: appended unless it is the king's own square or holds a piece of its team. */
  function Neighbour(board: Board, ghost g: seq<seq<Option<int>>>, p: Piece, i: int, k: int, ts: seq<Tile>): (ts': seq<Tile>)
    reads board, board.tiles
    requires Sees(board, g) && InBoard(i, k) && FromBoard(board, ts)
    ensures FromBoard(board, ts')
    ensures Coords(ts') == Coords(ts) + Cell(g, p.tile.x, p.tile.y, p.team, i, k)
  {
    var checkTile := board.tiles[i, k];
    if !((checkTile.x == p.tile.x && checkTile.y == p.tile.y) ||
         (checkTile.piece.Some? && checkTile.piece.value.team == p.team)) then
      CoordsSnoc(ts, checkTile);
      ts + [checkTile]
    else ts
  }

  /** The eight jumps, in the order the source tries them. */
  method KnightTiles(board: Board, p: Piece) returns (ts: seq<Tile>)
    requires board.Valid()
    ensures FromBoard(board, ts)
    ensures Coords(ts) == KnightMoves(Occupancy(board), p.tile.x, p.tile.y, p.team)
  {
    ghost var g := Occupancy(board);
    var x, y, team := p.tile.x, p.tile.y, p.team;
    ts := Visit(board, g, team, x - 2, y - 1, []);
    assert Coords(ts) == Jump(g, team, x - 2, y - 1);
    ts := Visit(board, g, team, x - 2, y + 1, ts);
    ts := Visit(board, g, team, x - 1, y - 2, ts);
    ts := Visit(board, g, team, x - 1, y + 2, ts);
    ts := Visit(board, g, team, x + 1, y - 2, ts);
    ts := Visit(board, g, team, x + 1, y + 2, ts);
    ts := Visit(board, g, team, x + 2, y - 1, ts);
    ts := Visit(board, g, team, x + 2, y + 1, ts);
  }

  /** The forward part of the pawn case: the push onto an empty square and, from the start rank, the double push. */
  function Pushes(board: Board, ghost g: seq<seq<Option<int>>>, x: int, y: int, direction: int): (ts: seq<Tile>)
    reads board, board.tiles
    requires Sees(board, g) && InBoard(x, y + direction)
    ensures FromBoard(board, ts)
    ensures Coords(ts) == PawnPushes(g, x, y, direction)
  {
    if board.tiles[x, y + direction].piece == None then
      var one := board.tiles[x, y + direction];
      CoordsSnoc([], one);
      if ((y == 1 && direction == 1) || (y == 6 && direction == -1)) && board.tiles[x, y + 2 * direction].piece == None then
        var two := board.tiles[x, y + 2 * direction];
        CoordsSnoc([one], two);
        [one, two]
      else [one]
    else []
  }

  method PawnTiles(board: Board, p: Piece) returns (ts: seq<Tile>)
    requires board.Valid() && InBoard(p.tile.x, p.tile.y + Dir(p.team))
    ensures FromBoard(board, ts)
    ensures Coords(ts) == PawnMoves(Occupancy(board), p.tile.x, p.tile.y, p.team)
  {
    ghost var g := Occupancy(board);
    var x, y := p.tile.x, p.tile.y;
    var direction := 0;
    if p.team == 0 {
      direction := 1;
    } else {
      direction := -1;
    }
    ts := Pushes(board, g, x, y, direction);
    ghost var pushes := Coords(ts);
    if x - 1 >= 0 {
      ts := Capture(board, g, p.team, x - 1, y + direction, ts);
    } else {
      assert PawnTakes(g, x - 1, y + direction, p.team) == {};
    }
    ghost var left := Coords(ts);
    assert left == pushes + PawnTakes(g, x - 1, y + direction, p.team);
    if x + 1 < 8 {
      ts := Capture(board, g, p.team, x + 1, y + direction, ts);
    } else {
      assert PawnTakes(g, x + 1, y + direction, p.team) == {};
    }
    assert Coords(ts) == left + PawnTakes(g, x + 1, y + direction, p.team);
  }

  /** The flags `u`, `d`, `l`, `r` say which of the file and rank rays are still open after `n` steps. */
  predicate RookFlags(g: seq<seq<Option<int>>>, x: int, y: int, n: nat, u: bool, d: bool, l: bool, r: bool)
    requires IsGrid(g)
  {
    u == Open(g, x, y, 1, 0, n) && d == Open(g, x, y, -1, 0, n) &&
    l == Open(g, x, y, 0, -1, n) && r == Open(g, x, y, 0, 1, n)
  }

  /** The flags `ul`, `ur`, `dl`, `dr` say which diagonal rays are still open after `n` steps. */
  predicate BishopFlags(g: seq<seq<Option<int>>>, x: int, y: int, n: nat, ul: bool, ur: bool, dl: bool, dr: bool)
    requires IsGrid(g)
  {
    ul == Open(g, x, y, 1, -1, n) && ur == Open(g, x, y, 1, 1, n) &&
    dl == Open(g, x, y, -1, -1, n) && dr == Open(g, x, y, -1, 1, n)
  }

  /** One iteration of the rook loop: the four file and rank rays, in the source's order. */
  function RookStep(board: Board, ghost g: seq<seq<Option<int>>>, p: Piece, i: int, u: bool, d: bool, l: bool, r: bool, ts: seq<Tile>):
    (res: (bool, bool, bool, bool, seq<Tile>))
    reads board, board.tiles
    requires Sees(board, g) && i >= 1 && FromBoard(board, ts)
    requires RookFlags(g, p.tile.x, p.tile.y, i - 1, u, d, l, r)
    ensures RookFlags(g, p.tile.x, p.tile.y, i, res.0, res.1, res.2, res.3)
    ensures FromBoard(board, res.4)
    ensures Coords(res.4) == Coords(ts) + RookNext(g, p.tile.x, p.tile.y, p.team, i)
  {
    var s1 := Probe(board, g, p, 1, 0, i, u, ts);
    var s2 := Probe(board, g, p, -1, 0, i, d, s1.1);
    var s3 := Probe(board, g, p, 0, -1, i, l, s2.1);
    var s4 := Probe(board, g, p, 0, 1, i, r, s3.1);
    Regroup(Coords(ts), Next(g, p.tile.x, p.tile.y, p.team, 1, 0, i), Next(g, p.tile.x, p.tile.y, p.team, -1, 0, i),
      Next(g, p.tile.x, p.tile.y, p.team, 0, -1, i), Next(g, p.tile.x, p.tile.y, p.team, 0, 1, i));
    (s1.0, s2.0, s3.0, s4.0, s4.1)
  }

  /** One iteration of the bishop loop: the four diagonal rays, in the source's order. */
  function BishopStep(board: Board, ghost g: seq<seq<Option<int>>>, p: Piece, i: int, ul: bool, ur: bool, dl: bool, dr: bool, ts: seq<Tile>):
    (res: (bool, bool, bool, bool, seq<Tile>))
    reads board, board.tiles
    requires Sees(board, g) && i >= 1 && FromBoard(board, ts)
    requires BishopFlags(g, p.tile.x, p.tile.y, i - 1, ul, ur, dl, dr)
    ensures BishopFlags(g, p.tile.x, p.tile.y, i, res.0, res.1, res.2, res.3)
    ensures FromBoard(board, res.4)
    ensures Coords(res.4) == Coords(ts) + BishopNext(g, p.tile.x, p.tile.y, p.team, i)
  {
    var s1 := Probe(board, g, p, 1, -1, i, ul, ts);
    var s2 := Probe(board, g, p, 1, 1, i, ur, s1.1);
    var s3 := Probe(board, g, p, -1, -1, i, dl, s2.1);
    var s4 := Probe(board, g, p, -1, 1, i, dr, s3.1);
    Regroup(Coords(ts), Next(g, p.tile.x, p.tile.y, p.team, 1, -1, i), Next(g, p.tile.x, p.tile.y, p.team, 1, 1, i),
      Next(g, p.tile.x, p.tile.y, p.team, -1, -1, i), Next(g, p.tile.x, p.tile.y, p.team, -1, 1, i));
    (s1.0, s2.0, s3.0, s4.0, s4.1)
  }

  method RookTiles(board: Board, p: Piece) returns (ts: seq<Tile>)
    requires board.Valid()
    ensures FromBoard(board, ts)
    ensures Coords(ts) == RookMoves(Occupancy(board), p.tile.x, p.tile.y, p.team)
  {
    ghost var g := Occupancy(board);
    var x, y, team := p.tile.x, p.tile.y, p.team;
    var u, d, l, r := true, true, true, true;
    ts := [];
    var i := 1;
    while i < 8
      invariant 1 <= i <= 8
      invariant FromBoard(board, ts)
      invariant RookFlags(g, x, y, i - 1, u, d, l, r)
      invariant Coords(ts) == RookRays(g, x, y, team, i - 1)
    {
      var rook := RookStep(board, g, p, i, u, d, l, r, ts);
      RookRaysStep(g, x, y, team, i);
      u, d, l, r, ts := rook.0, rook.1, rook.2, rook.3, rook.4;
      i := i + 1;
    }
  }

  method BishopTiles(board: Board, p: Piece) returns (ts: seq<Tile>)
    requires board.Valid()
    ensures FromBoard(board, ts)
    ensures Coords(ts) == BishopMoves(Occupancy(board), p.tile.x, p.tile.y, p.team)
  {
    ghost var g := Occupancy(board);
    var x, y, team := p.tile.x, p.tile.y, p.team;
    var ul, ur, dl, dr := true, true, true, true;
    ts := [];
    var i := 1;
    while i < 8
      invariant 1 <= i <= 8
      invariant FromBoard(board, ts)
      invariant BishopFlags(g, x, y, i - 1, ul, ur, dl, dr)
      invariant Coords(ts) == BishopRays(g, x, y, team, i - 1)
    {
      var bishop := BishopStep(board, g, p, i, ul, ur, dl, dr, ts);
      BishopRaysStep(g, x, y, team, i);
      ul, ur, dl, dr, ts := bishop.0, bishop.1, bishop.2, bishop.3, bishop.4;
      i := i + 1;
    }
  }

  /** The queen runs one loop over all eight directions, file and rank first, then the diagonals. */
  method QueenTiles(board: Board, p: Piece) returns (ts: seq<Tile>)
    requires board.Valid()
    ensures FromBoard(board, ts)
    ensures Coords(ts) == QueenMoves(Occupancy(board), p.tile.x, p.tile.y, p.team)
  {
    ghost var g := Occupancy(board);
    var x, y, team := p.tile.x, p.tile.y, p.team;
    var u, d, l, r, ul, ur, dl, dr := true, true, true, true, true, true, true, true;
    ts := [];
    var i := 1;
    while i < 8
      invariant 1 <= i <= 8
      invariant FromBoard(board, ts)
      invariant RookFlags(g, x, y, i - 1, u, d, l, r)
      invariant BishopFlags(g, x, y, i - 1, ul, ur, dl, dr)
      invariant Coords(ts) == RookRays(g, x, y, team, i - 1) + BishopRays(g, x, y, team, i - 1)
    {
      var rook := RookStep(board, g, p, i, u, d, l, r, ts);
      var bishop := BishopStep(board, g, p, i, ul, ur, dl, dr, rook.4);
      RookRaysStep(g, x, y, team, i);
      BishopRaysStep(g, x, y, team, i);
      UnionStep(Coords(ts), RookRays(g, x, y, team, i - 1), BishopRays(g, x, y, team, i - 1),
        RookNext(g, x, y, team, i), BishopNext(g, x, y, team, i), Coords(rook.4), Coords(bishop.4));
      u, d, l, r, ul, ur, dl, dr := rook.0, rook.1, rook.2, rook.3, bishop.0, bishop.1, bishop.2, bishop.3;
      ts := bishop.4;
      i := i + 1;
    }
  }
}
