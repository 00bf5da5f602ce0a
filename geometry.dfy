/**
 * Board geometry shared by every revision of the tile-based board: squares,
 * the 8 by 8 grid, the rays that the sliding pieces walk, and the fixed
 * king and knight patterns.
 *
 * A grid is indexed `g[x][y]`, exactly like the C# `Tile[x, y]` arrays:
 * `x` is the file (0 is the a-file) and `y` the rank (0 is rank 1).
 */
module Geometry {

  datatype Option<T> = None | Some(value: T)

  /** A square of the board, by file and rank. */
  datatype Sq = Sq(x: int, y: int)

  predicate InBoard(x: int, y: int) {
    0 <= x < 8 && 0 <= y < 8
  }

  predicate IsFile(c: char) {
    'a' <= c <= 'h'
  }

  predicate IsRank(c: char) {
    '1' <= c <= '8'
  }

  /** A square's name, as a tile prints it: the file letter `'a' + x`, then the rank digit `'1' + y`. */
  function SquareName(t: Sq): (r: string)
    requires InBoard(t.x, t.y)
    ensures |r| == 2 && IsFile(r[0]) && IsRank(r[1])
  {
    [('a' as int + t.x) as char, ('1' as int + t.y) as char]
  }

  /** The square a move text names at `s[i]`, `s[i + 1]`: file `s[i] - 'a'`, rank `s[i + 1] - '1'`. */
  function SquareAt(s: string, i: nat): (r: Sq)
    requires i + 2 <= |s|
    ensures IsFile(s[i]) && IsRank(s[i + 1]) <==> InBoard(r.x, r.y)
  {
    Sq(s[i] as int - 'a' as int, s[i + 1] as int - '1' as int)
  }

  /** Reading back a printed square gives the square. */
  lemma SquareNameRead(t: Sq)
    requires InBoard(t.x, t.y)
    ensures SquareAt(SquareName(t), 0) == t
  {
  }

  /** Printing a square read from a file letter and a rank digit gives the two characters back. */
  lemma SquareReadName(s: string, i: nat)
    requires i + 2 <= |s| && IsFile(s[i]) && IsRank(s[i + 1])
    ensures SquareName(SquareAt(s, i)) == s[i..i + 2]
  {
  }

  predicate IsGrid<T>(g: seq<seq<T>>) {
    |g| == 8 && forall x | 0 <= x < 8 :: |g[x]| == 8
  }

  /** The grid `g` with the cell at (x, y) replaced by `v`. */
  function SetCell<T>(g: seq<seq<T>>, x: int, y: int, v: T): (r: seq<seq<T>>)
    requires IsGrid(g) && InBoard(x, y)
    ensures IsGrid(r)
    ensures forall i, j | InBoard(i, j) :: r[i][j] == if i == x && j == y then v else g[i][j]
  {
    g[x := g[x][y := v]]
  }

  /** Writing two cells and then writing back their old contents gives the grid back. */
  lemma SetCellRestore<T>(g: seq<seq<T>>, o: Sq, t: Sq, u: T, v: T)
    requires IsGrid(g) && InBoard(o.x, o.y) && InBoard(t.x, t.y)
    ensures SetCell(SetCell(SetCell(SetCell(g, o.x, o.y, u), t.x, t.y, v), o.x, o.y, g[o.x][o.y]), t.x, t.y, g[t.x][t.y]) == g
  {
    var r := SetCell(SetCell(SetCell(SetCell(g, o.x, o.y, u), t.x, t.y, v), o.x, o.y, g[o.x][o.y]), t.x, t.y, g[t.x][t.y]);
    forall i | 0 <= i < 8
      ensures r[i] == g[i]
    {
      assert forall j | 0 <= j < 8 :: r[i][j] == g[i][j];
    }
  }

  function Max(a: int, b: int): int { if a < b then b else a }
  function Min(a: int, b: int): int { if a < b then a else b }

  /** The coordinate `n` steps from `v` in direction `dv` (one of -1, 0, 1). */
  function Walk(v: int, dv: int, n: int): int {
    if dv > 0 then v + n else if dv < 0 then v - n else v
  }

  /** The square `n` steps from (x, y) in direction (dx, dy). */
  function Step(x: int, y: int, dx: int, dy: int, n: int): Sq {
    Sq(Walk(x, dx, n), Walk(y, dy, n))
  }

  predicate Taken<T>(g: seq<seq<Option<T>>>, x: int, y: int)
    requires IsGrid(g)
  {
    InBoard(x, y) && g[x][y].Some?
  }

  /** True when none of the first `n` squares of the ray that lie on the board is occupied. */
  predicate Open<T>(g: seq<seq<Option<T>>>, x: int, y: int, dx: int, dy: int, n: nat)
    requires IsGrid(g)
  {
    n == 0 || (Open(g, x, y, dx, dy, n - 1) && !Taken(g, Walk(x, dx, n), Walk(y, dy, n)))
  }

  /**
   * The squares that a sliding loop of `n` iterations visits along one
   * direction: every on-board square up to and including the first occupied one.
   */
  function Reached<T>(g: seq<seq<Option<T>>>, x: int, y: int, dx: int, dy: int, n: nat): set<Sq>
    requires IsGrid(g)
  {
    if n == 0 then {}
    else Reached(g, x, y, dx, dy, n - 1) + NextOnRay(g, x, y, dx, dy, n)
  }

  /** What step `n` of a sliding loop adds: its square, when it is on the board and the ray is still open. */
  function NextOnRay<T>(g: seq<seq<Option<T>>>, x: int, y: int, dx: int, dy: int, n: nat): set<Sq>
    requires IsGrid(g) && n >= 1
  {
    if InBoard(Walk(x, dx, n), Walk(y, dy, n)) && Open(g, x, y, dx, dy, n - 1)
    then {Step(x, y, dx, dy, n)} else {}
  }

  predicate IsDirection(dx: int, dy: int) {
    -1 <= dx <= 1 && -1 <= dy <= 1 && (dx != 0 || dy != 0)
  }

  lemma {:induction false} OpenPrefix<T>(g: seq<seq<Option<T>>>, x: int, y: int, dx: int, dy: int, n: nat, k: nat)
    requires IsGrid(g) && Open(g, x, y, dx, dy, n) && 1 <= k <= n
    ensures !Taken(g, Walk(x, dx, k), Walk(y, dy, k))
    ensures Open(g, x, y, dx, dy, k - 1)
  {
    if k < n {
      OpenPrefix(g, x, y, dx, dy, n - 1, k);
    }
  }

  /**
   * A reached square lies on the ray within `n` steps and on the board, and
   * every square before it on the ray is empty.
   */
  lemma {:induction false} ReachedOnRay<T>(g: seq<seq<Option<T>>>, x: int, y: int, dx: int, dy: int, n: nat, t: Sq)
    requires IsGrid(g) && t in Reached(g, x, y, dx, dy, n)
    ensures exists k :: 1 <= k <= n && t == Step(x, y, dx, dy, k) && InBoard(t.x, t.y) && Open(g, x, y, dx, dy, k - 1)
  {
    if t !in NextOnRay(g, x, y, dx, dy, n) {
      ReachedOnRay(g, x, y, dx, dy, n - 1, t);
    }
  }

  /** Every on-board square of the ray whose predecessors are all empty is reached. */
  lemma {:induction false} ReachedComplete<T>(g: seq<seq<Option<T>>>, x: int, y: int, dx: int, dy: int, n: nat, k: nat)
    requires IsGrid(g) && 1 <= k <= n
    requires InBoard(Walk(x, dx, k), Walk(y, dy, k)) && Open(g, x, y, dx, dy, k - 1)
    ensures Step(x, y, dx, dy, k) in Reached(g, x, y, dx, dy, n)
  {
    if k < n {
      ReachedComplete(g, x, y, dx, dy, n - 1, k);
    }
  }

  /** Membership in a ray, both ways. */
  lemma ReachedIff<T>(g: seq<seq<Option<T>>>, x: int, y: int, dx: int, dy: int, n: nat, t: Sq)
    requires IsGrid(g)
    ensures t in Reached(g, x, y, dx, dy, n) <==>
      exists k :: 1 <= k <= n && t == Step(x, y, dx, dy, k) && InBoard(t.x, t.y) && Open(g, x, y, dx, dy, k - 1)
  {
    if t in Reached(g, x, y, dx, dy, n) {
      ReachedOnRay(g, x, y, dx, dy, n, t);
    }
    if exists k :: 1 <= k <= n && t == Step(x, y, dx, dy, k) && InBoard(t.x, t.y) && Open(g, x, y, dx, dy, k - 1) {
      var k :| 1 <= k <= n && t == Step(x, y, dx, dy, k) && InBoard(t.x, t.y) && Open(g, x, y, dx, dy, k - 1);
      ReachedComplete(g, x, y, dx, dy, n, k);
    }
  }

  /** A ray never goes past the first occupied square it meets. */
  lemma ReachedStops<T>(g: seq<seq<Option<T>>>, x: int, y: int, dx: int, dy: int, n: nat, k: nat, m: nat)
    requires IsGrid(g) && IsDirection(dx, dy) && 1 <= k < m
    requires Taken(g, Walk(x, dx, k), Walk(y, dy, k))
    ensures Step(x, y, dx, dy, m) !in Reached(g, x, y, dx, dy, n)
  {
    var t := Step(x, y, dx, dy, m);
    if t in Reached(g, x, y, dx, dy, n) {
      ReachedOnRay(g, x, y, dx, dy, n, t);
      var j :| 1 <= j <= n && t == Step(x, y, dx, dy, j) && InBoard(t.x, t.y) && Open(g, x, y, dx, dy, j - 1);
      assert j == m;
      OpenPrefix(g, x, y, dx, dy, j - 1, k);
      assert false;
    }
  }

  /** A loop of `n` iterations reaches at most `n` squares along one direction. */
  lemma {:induction false} ReachedCount<T>(g: seq<seq<Option<T>>>, x: int, y: int, dx: int, dy: int, n: nat)
    requires IsGrid(g)
    ensures |Reached(g, x, y, dx, dy, n)| <= n
  {
    if n > 0 {
      ReachedCount(g, x, y, dx, dy, n - 1);
    }
  }

  /** The squares the king loops visit: the neighbourhood clipped to the board, without the king's own square. */
  function KingSquares(x: int, y: int): (r: set<Sq>)
    requires InBoard(x, y)
    ensures forall t :: t in r <==>
      InBoard(t.x, t.y) && -1 <= t.x - x <= 1 && -1 <= t.y - y <= 1 && t != Sq(x, y)
  {
    set i, j | Max(0, x - 1) <= i <= Min(x + 1, 7) && Max(0, y - 1) <= j <= Min(y + 1, 7) && !(i == x && j == y) :: Sq(i, j)
  }

  /** A knight's jump: two squares along one axis and one along the other. */
  predicate KnightOffset(dx: int, dy: int) {
    ((dx == 2 || dx == -2) && (dy == 1 || dy == -1)) || ((dx == 1 || dx == -1) && (dy == 2 || dy == -2))
  }

  /** The four rook rays of `n` steps, in the order +x, -x, +y, -y. */
  function LineReach<T>(g: seq<seq<Option<T>>>, x: int, y: int, n: nat): set<Sq>
    requires IsGrid(g)
  {
    Reached(g, x, y, 1, 0, n) + Reached(g, x, y, -1, 0, n) +
    Reached(g, x, y, 0, 1, n) + Reached(g, x, y, 0, -1, n)
  }

  /** The four bishop rays of `n` steps, in the order (+x,+y), (+x,-y), (-x,+y), (-x,-y). */
  function DiagonalReach<T>(g: seq<seq<Option<T>>>, x: int, y: int, n: nat): set<Sq>
    requires IsGrid(g)
  {
    Reached(g, x, y, 1, 1, n) + Reached(g, x, y, 1, -1, n) +
    Reached(g, x, y, -1, 1, n) + Reached(g, x, y, -1, -1, n)
  }

  /** The queen's rays: the rook's four and the bishop's four. */
  function QueenReach<T>(g: seq<seq<Option<T>>>, x: int, y: int, n: nat): set<Sq>
    requires IsGrid(g)
  {
    LineReach(g, x, y, n) + DiagonalReach(g, x, y, n)
  }

  // The lemmas below follow a loop that lists the squares it visits that lie
  // in a set `k` (the squares a generator keeps); each says what one more
  // iteration adds, in the order the loop visits the directions.

  lemma LineStep<T>(g: seq<seq<Option<T>>>, x: int, y: int, i: nat, k: set<Sq>, a: set<Sq>)
    requires IsGrid(g) && i >= 1 && a == LineReach(g, x, y, i - 1) * k
    ensures LineReach(g, x, y, i) * k ==
      a + NextOnRay(g, x, y, 1, 0, i) * k + NextOnRay(g, x, y, -1, 0, i) * k +
      NextOnRay(g, x, y, 0, 1, i) * k + NextOnRay(g, x, y, 0, -1, i) * k
  {
  }

  lemma DiagonalStep<T>(g: seq<seq<Option<T>>>, x: int, y: int, i: nat, k: set<Sq>, a: set<Sq>)
    requires IsGrid(g) && i >= 1 && a == DiagonalReach(g, x, y, i - 1) * k
    ensures DiagonalReach(g, x, y, i) * k ==
      a + NextOnRay(g, x, y, 1, 1, i) * k + NextOnRay(g, x, y, 1, -1, i) * k +
      NextOnRay(g, x, y, -1, 1, i) * k + NextOnRay(g, x, y, -1, -1, i) * k
  {
  }

  /** The queen loop visits +x, (+x,+y), (+x,-y), -x, (-x,+y), (-x,-y), +y, -y. */
  lemma QueenStep<T>(g: seq<seq<Option<T>>>, x: int, y: int, i: nat, k: set<Sq>, a: set<Sq>)
    requires IsGrid(g) && i >= 1 && a == QueenReach(g, x, y, i - 1) * k
    ensures QueenReach(g, x, y, i) * k ==
      a + NextOnRay(g, x, y, 1, 0, i) * k + NextOnRay(g, x, y, 1, 1, i) * k + NextOnRay(g, x, y, 1, -1, i) * k +
      NextOnRay(g, x, y, -1, 0, i) * k + NextOnRay(g, x, y, -1, 1, i) * k + NextOnRay(g, x, y, -1, -1, i) * k +
      NextOnRay(g, x, y, 0, 1, i) * k + NextOnRay(g, x, y, 0, -1, i) * k
  {
    var l, d := LineReach(g, x, y, i - 1) * k, DiagonalReach(g, x, y, i - 1) * k;
    LineStep(g, x, y, i, k, l);
    DiagonalStep(g, x, y, i, k, d);
    assert QueenReach(g, x, y, i) * k == LineReach(g, x, y, i) * k + DiagonalReach(g, x, y, i) * k;
    assert QueenReach(g, x, y, i - 1) * k == l + d;
    Interleave(a, l, d,
      NextOnRay(g, x, y, 1, 0, i) * k, NextOnRay(g, x, y, 1, 1, i) * k, NextOnRay(g, x, y, 1, -1, i) * k,
      NextOnRay(g, x, y, -1, 0, i) * k, NextOnRay(g, x, y, -1, 1, i) * k, NextOnRay(g, x, y, -1, -1, i) * k,
      NextOnRay(g, x, y, 0, 1, i) * k, NextOnRay(g, x, y, 0, -1, i) * k);
  }

  /** The queen's probes interleave the rook's and the bishop's. */
  lemma Interleave(a: set<Sq>, l: set<Sq>, d: set<Sq>, n1: set<Sq>, n2: set<Sq>, n3: set<Sq>, n4: set<Sq>,
                   n5: set<Sq>, n6: set<Sq>, n7: set<Sq>, n8: set<Sq>)
    requires a == l + d
    ensures (l + n1 + n4 + n7 + n8) + (d + n2 + n3 + n5 + n6) == a + n1 + n2 + n3 + n4 + n5 + n6 + n7 + n8
  {
  }

  // The sliding loops of the later revisions keep one bit per direction in
  // a byte `control`, which starts as 0b11111111; a direction's bit is
  // subtracted when its ray meets an occupied square, and only while it is
  // still set. The byte is modelled as the set of its set bits (the masks
  // 0x01 to 0x80): testing a bit is membership and subtracting a set bit is
  // removing it.

  /** Every bit set: the byte 0b11111111. */
  const AllBits: set<int> := {0x01, 0x02, 0x04, 0x08, 0x10, 0x20, 0x40, 0x80}

  /** Whether the `control` bit of a direction is still set. */
  predicate Flag(control: set<int>, bit: int) {
    bit in control
  }

  /**
   * One probe of a sliding loop takes the byte from `before` to `after`: the
   * ray's bit is subtracted when it is set and step `i` of the ray is on the
   * board and occupied, and every other bit is kept.
   */
  ghost predicate Probes<T>(g: seq<seq<Option<T>>>, x: int, y: int, dx: int, dy: int, bit: int, i: nat,
                            before: set<int>, after: set<int>)
    requires IsGrid(g)
  {
    (forall other | other != bit :: other in after <==> other in before) &&
    (bit in after <==> bit in before && !Taken(g, Walk(x, dx, i), Walk(y, dy, i)))
  }

  /** The square one probe visits: step `i` of the ray, when it is on the board and the ray's bit is set. */
  function Seen(x: int, y: int, dx: int, dy: int, bit: int, i: nat, control: set<int>): set<Sq> {
    if InBoard(Walk(x, dx, i), Walk(y, dy, i)) && Flag(control, bit) then {Step(x, y, dx, dy, i)} else {}
  }

  /** A probe whose bit tells whether the ray is open leaves the bit telling whether it is still open. */
  lemma ProbeFlag<T>(g: seq<seq<Option<T>>>, x: int, y: int, dx: int, dy: int, bit: int, i: nat, control: set<int>, after: set<int>)
    requires IsGrid(g) && i >= 1 && Flag(control, bit) == Open(g, x, y, dx, dy, i - 1)
    requires Probes(g, x, y, dx, dy, bit, i, control, after)
    ensures Flag(after, bit) == Open(g, x, y, dx, dy, i)
  {
  }

  /** A probe adds its square exactly when that square is the next one on the ray. */
  lemma ProbeSeen<T>(g: seq<seq<Option<T>>>, x: int, y: int, dx: int, dy: int, bit: int, i: nat, control: set<int>)
    requires IsGrid(g) && i >= 1 && Flag(control, bit) == Open(g, x, y, dx, dy, i - 1)
    ensures Seen(x, y, dx, dy, bit, i, control) == NextOnRay(g, x, y, dx, dy, i)
  {
  }

  /** The rook bits of `control` say which of the four lines are still open after `n` steps. */
  ghost predicate LineFlags<T>(g: seq<seq<Option<T>>>, x: int, y: int, n: nat, control: set<int>)
    requires IsGrid(g)
  {
    Flag(control, 0x01) == Open(g, x, y, 1, 0, n) &&
    Flag(control, 0x02) == Open(g, x, y, -1, 0, n) &&
    Flag(control, 0x04) == Open(g, x, y, 0, 1, n) &&
    Flag(control, 0x08) == Open(g, x, y, 0, -1, n)
  }

  /** The bishop bits of `control` say which of the four diagonals are still open after `n` steps. */
  ghost predicate DiagonalFlags<T>(g: seq<seq<Option<T>>>, x: int, y: int, n: nat, control: set<int>)
    requires IsGrid(g)
  {
    Flag(control, 0x80) == Open(g, x, y, 1, 1, n) &&
    Flag(control, 0x40) == Open(g, x, y, 1, -1, n) &&
    Flag(control, 0x20) == Open(g, x, y, -1, 1, n) &&
    Flag(control, 0x10) == Open(g, x, y, -1, -1, n)
  }

  /** The values of `control` whose rook and bishop bits both match the rays after `n` steps. */
  ghost function QueenControl<T>(g: seq<seq<Option<T>>>, x: int, y: int, n: nat): iset<set<int>>
    requires IsGrid(g)
  {
    iset control | LineFlags(g, x, y, n, control) && DiagonalFlags(g, x, y, n, control)
  }

  /** At the start no ray has met anything. */
  lemma AllBitsOpen<T>(g: seq<seq<Option<T>>>, x: int, y: int)
    requires IsGrid(g)
    ensures LineFlags(g, x, y, 0, AllBits) && DiagonalFlags(g, x, y, 0, AllBits)
  {
  }

  /** One round of the rook loop: its four probes +x, -x, +y, -y. */
  lemma LineRound<T>(g: seq<seq<Option<T>>>, x: int, y: int, i: nat, k: set<Sq>, a: set<Sq>, c0: set<int>, c1: set<int>, c2: set<int>, c3: set<int>, c4: set<int>)
    requires IsGrid(g) && i >= 1 && LineFlags(g, x, y, i - 1, c0) && a == LineReach(g, x, y, i - 1) * k
    requires Probes(g, x, y, 1, 0, 0x01, i, c0, c1) && Probes(g, x, y, -1, 0, 0x02, i, c1, c2)
    requires Probes(g, x, y, 0, 1, 0x04, i, c2, c3) && Probes(g, x, y, 0, -1, 0x08, i, c3, c4)
    ensures LineFlags(g, x, y, i, c4)
    ensures LineReach(g, x, y, i) * k ==
      a + Seen(x, y, 1, 0, 0x01, i, c0) * k + Seen(x, y, -1, 0, 0x02, i, c1) * k
        + Seen(x, y, 0, 1, 0x04, i, c2) * k + Seen(x, y, 0, -1, 0x08, i, c3) * k
  {
    ProbeFlag(g, x, y, 1, 0, 0x01, i, c0, c1);
    ProbeSeen(g, x, y, 1, 0, 0x01, i, c0);
    ProbeFlag(g, x, y, -1, 0, 0x02, i, c1, c2);
    ProbeSeen(g, x, y, -1, 0, 0x02, i, c1);
    ProbeFlag(g, x, y, 0, 1, 0x04, i, c2, c3);
    ProbeSeen(g, x, y, 0, 1, 0x04, i, c2);
    ProbeFlag(g, x, y, 0, -1, 0x08, i, c3, c4);
    ProbeSeen(g, x, y, 0, -1, 0x08, i, c3);
    LineStep(g, x, y, i, k, a);
  }

  /** One round of the bishop loop: its four probes (+x,+y), (+x,-y), (-x,+y), (-x,-y). */
  lemma DiagonalRound<T>(g: seq<seq<Option<T>>>, x: int, y: int, i: nat, k: set<Sq>, a: set<Sq>, c0: set<int>, c1: set<int>, c2: set<int>, c3: set<int>, c4: set<int>)
    requires IsGrid(g) && i >= 1 && DiagonalFlags(g, x, y, i - 1, c0) && a == DiagonalReach(g, x, y, i - 1) * k
    requires Probes(g, x, y, 1, 1, 0x80, i, c0, c1) && Probes(g, x, y, 1, -1, 0x40, i, c1, c2)
    requires Probes(g, x, y, -1, 1, 0x20, i, c2, c3) && Probes(g, x, y, -1, -1, 0x10, i, c3, c4)
    ensures DiagonalFlags(g, x, y, i, c4)
    ensures DiagonalReach(g, x, y, i) * k ==
      a + Seen(x, y, 1, 1, 0x80, i, c0) * k + Seen(x, y, 1, -1, 0x40, i, c1) * k
        + Seen(x, y, -1, 1, 0x20, i, c2) * k + Seen(x, y, -1, -1, 0x10, i, c3) * k
  {
    ProbeFlag(g, x, y, 1, 1, 0x80, i, c0, c1);
    ProbeSeen(g, x, y, 1, 1, 0x80, i, c0);
    ProbeFlag(g, x, y, 1, -1, 0x40, i, c1, c2);
    ProbeSeen(g, x, y, 1, -1, 0x40, i, c1);
    ProbeFlag(g, x, y, -1, 1, 0x20, i, c2, c3);
    ProbeSeen(g, x, y, -1, 1, 0x20, i, c2);
    ProbeFlag(g, x, y, -1, -1, 0x10, i, c3, c4);
    ProbeSeen(g, x, y, -1, -1, 0x10, i, c3);
    DiagonalStep(g, x, y, i, k, a);
  }

  /**
   * The eight probes of one queen round keep the flags in step with the open
   * rays: each probe finds its bit telling whether its ray was open, and the
   * round ends with every bit telling whether its ray is still open.
   */
  lemma QueenFlags<T>(g: seq<seq<Option<T>>>, x: int, y: int, i: nat,
                      c0: set<int>, c1: set<int>, c2: set<int>, c3: set<int>, c4: set<int>, c5: set<int>, c6: set<int>, c7: set<int>, c8: set<int>)
    requires IsGrid(g) && i >= 1 && LineFlags(g, x, y, i - 1, c0) && DiagonalFlags(g, x, y, i - 1, c0)
    requires Probes(g, x, y, 1, 0, 0x01, i, c0, c1) && Probes(g, x, y, 1, 1, 0x80, i, c1, c2)
    requires Probes(g, x, y, 1, -1, 0x40, i, c2, c3) && Probes(g, x, y, -1, 0, 0x02, i, c3, c4)
    requires Probes(g, x, y, -1, 1, 0x20, i, c4, c5) && Probes(g, x, y, -1, -1, 0x10, i, c5, c6)
    requires Probes(g, x, y, 0, 1, 0x04, i, c6, c7) && Probes(g, x, y, 0, -1, 0x08, i, c7, c8)
    ensures Flag(c0, 0x01) == Open(g, x, y, 1, 0, i - 1) && Flag(c1, 0x80) == Open(g, x, y, 1, 1, i - 1)
    ensures Flag(c2, 0x40) == Open(g, x, y, 1, -1, i - 1) && Flag(c3, 0x02) == Open(g, x, y, -1, 0, i - 1)
    ensures Flag(c4, 0x20) == Open(g, x, y, -1, 1, i - 1) && Flag(c5, 0x10) == Open(g, x, y, -1, -1, i - 1)
    ensures Flag(c6, 0x04) == Open(g, x, y, 0, 1, i - 1) && Flag(c7, 0x08) == Open(g, x, y, 0, -1, i - 1)
    ensures LineFlags(g, x, y, i, c8) && DiagonalFlags(g, x, y, i, c8)
  {
    ProbeFlag(g, x, y, 1, 0, 0x01, i, c0, c1);
    ProbeFlag(g, x, y, 1, 1, 0x80, i, c1, c2);
    ProbeFlag(g, x, y, 1, -1, 0x40, i, c2, c3);
    ProbeFlag(g, x, y, -1, 0, 0x02, i, c3, c4);
    ProbeFlag(g, x, y, -1, 1, 0x20, i, c4, c5);
    ProbeFlag(g, x, y, -1, -1, 0x10, i, c5, c6);
    ProbeFlag(g, x, y, 0, 1, 0x04, i, c6, c7);
    ProbeFlag(g, x, y, 0, -1, 0x08, i, c7, c8);
  }

  /** One round of the queen loop: its eight probes +x, (+x,+y), (+x,-y), -x, (-x,+y), (-x,-y), +y, -y. */
  lemma QueenRound<T>(g: seq<seq<Option<T>>>, x: int, y: int, i: nat, k: set<Sq>, a: set<Sq>,
                      c0: set<int>, c1: set<int>, c2: set<int>, c3: set<int>, c4: set<int>, c5: set<int>, c6: set<int>, c7: set<int>, c8: set<int>)
    requires IsGrid(g) && i >= 1 && LineFlags(g, x, y, i - 1, c0) && DiagonalFlags(g, x, y, i - 1, c0)
    requires a == QueenReach(g, x, y, i - 1) * k
    requires Probes(g, x, y, 1, 0, 0x01, i, c0, c1) && Probes(g, x, y, 1, 1, 0x80, i, c1, c2)
    requires Probes(g, x, y, 1, -1, 0x40, i, c2, c3) && Probes(g, x, y, -1, 0, 0x02, i, c3, c4)
    requires Probes(g, x, y, -1, 1, 0x20, i, c4, c5) && Probes(g, x, y, -1, -1, 0x10, i, c5, c6)
    requires Probes(g, x, y, 0, 1, 0x04, i, c6, c7) && Probes(g, x, y, 0, -1, 0x08, i, c7, c8)
    ensures LineFlags(g, x, y, i, c8) && DiagonalFlags(g, x, y, i, c8)
    ensures QueenReach(g, x, y, i) * k ==
      a + Seen(x, y, 1, 0, 0x01, i, c0) * k + Seen(x, y, 1, 1, 0x80, i, c1) * k
        + Seen(x, y, 1, -1, 0x40, i, c2) * k + Seen(x, y, -1, 0, 0x02, i, c3) * k
        + Seen(x, y, -1, 1, 0x20, i, c4) * k + Seen(x, y, -1, -1, 0x10, i, c5) * k
        + Seen(x, y, 0, 1, 0x04, i, c6) * k + Seen(x, y, 0, -1, 0x08, i, c7) * k
  {
    QueenFlags(g, x, y, i, c0, c1, c2, c3, c4, c5, c6, c7, c8);
    ProbeSeen(g, x, y, 1, 0, 0x01, i, c0);
    ProbeSeen(g, x, y, 1, 1, 0x80, i, c1);
    ProbeSeen(g, x, y, 1, -1, 0x40, i, c2);
    ProbeSeen(g, x, y, -1, 0, 0x02, i, c3);
    ProbeSeen(g, x, y, -1, 1, 0x20, i, c4);
    ProbeSeen(g, x, y, -1, -1, 0x10, i, c5);
    ProbeSeen(g, x, y, 0, 1, 0x04, i, c6);
    ProbeSeen(g, x, y, 0, -1, 0x08, i, c7);
    QueenStep(g, x, y, i, k, a);
  }

  /** A visit that does not happen adds nothing. */
  lemma Unvisited(s: set<Sq>, x: int, y: int, k: set<Sq>)
    requires !InBoard(x, y)
    ensures s + Jump(x, y) * k == s
  {
  }

  lemma EmptyUnion(s: set<Sq>)
    ensures {} + s == s
  {
  }

  /** A cell of the king's scan: every neighbour in `k` except the king's own square. */
  function KingCell(x: int, y: int, i: int, j: int, k: set<Sq>): set<Sq> {
    if i == x && j == y then {} else {Sq(i, j)} * k
  }

  /** What the inner king loop lists in column `i` before reaching row `j`. */
  function KingColumn(x: int, y: int, i: int, j: int, k: set<Sq>): set<Sq>
    decreases j - Max(y - 1, 0)
  {
    if j <= Max(y - 1, 0) then {} else KingColumn(x, y, i, j - 1, k) + KingCell(x, y, i, j - 1, k)
  }

  /** What the outer king loop lists before reaching column `i`. */
  function KingColumns(x: int, y: int, i: int, k: set<Sq>): set<Sq>
    decreases i - Max(x - 1, 0)
  {
    if i <= Max(x - 1, 0) then {} else KingColumns(x, y, i - 1, k) + KingColumn(x, y, i - 1, Min(y + 1, 7) + 1, k)
  }

  lemma {:induction false} KingColumnIff(x: int, y: int, i: int, j: int, k: set<Sq>, t: Sq)
    ensures t in KingColumn(x, y, i, j, k) <==>
      t.x == i && Max(y - 1, 0) <= t.y < j && t != Sq(x, y) && t in k
  {
    if j > Max(y - 1, 0) {
      KingColumnIff(x, y, i, j - 1, k, t);
    }
  }

  lemma {:induction false} KingColumnsIff(x: int, y: int, i: int, k: set<Sq>, t: Sq)
    ensures t in KingColumns(x, y, i, k) <==>
      Max(x - 1, 0) <= t.x < i && Max(y - 1, 0) <= t.y <= Min(y + 1, 7) && t != Sq(x, y) && t in k
  {
    if i > Max(x - 1, 0) {
      KingColumnsIff(x, y, i - 1, k, t);
      KingColumnIff(x, y, i - 1, Min(y + 1, 7) + 1, k, t);
    }
  }

  /** The two king loops list exactly the king's squares that lie in `k`. */
  lemma KingScan(x: int, y: int, k: set<Sq>)
    requires InBoard(x, y)
    ensures KingColumns(x, y, Min(x + 1, 7) + 1, k) == KingSquares(x, y) * k
  {
    forall t
      ensures t in KingColumns(x, y, Min(x + 1, 7) + 1, k) <==> t in KingSquares(x, y) * k
    {
      KingColumnsIff(x, y, Min(x + 1, 7) + 1, k, t);
    }
  }

  /** A single square, when it is on the board. */
  function Jump(x: int, y: int): set<Sq> {
    if InBoard(x, y) then {Sq(x, y)} else {}
  }

  /**
   * The knight's eight jumps from (x, y) that land on the board, in the order
   * (+2,+1), (+2,-1), (-2,+1), (-2,-1), (+1,+2), (+1,-2), (-1,+2), (-1,-2).
   */
  function KnightJumps(x: int, y: int): set<Sq> {
    set i, j | 0 <= i < 8 && 0 <= j < 8 && KnightOffset(i - x, j - y) :: Sq(i, j)
  }

  lemma KnightJumpsIff(x: int, y: int, t: Sq)
    ensures t in KnightJumps(x, y) <==> InBoard(t.x, t.y) && KnightOffset(t.x - x, t.y - y)
  {
    if InBoard(t.x, t.y) && KnightOffset(t.x - x, t.y - y) {
      assert Sq(t.x, t.y) == t;
    }
  }

  /** The knight generator's four columns, in its order: x+2, x-2, x+1, x-1. */
  function KnightDx(n: int): int {
    if n == 0 then 2 else if n == 1 then -2 else if n == 2 then 1 else -1
  }

  /** The row offset paired with column `n`: one for the outer columns, two for the inner ones. */
  function KnightDy(n: int): int {
    if n < 2 then 1 else 2
  }

  /** The two jumps into column `n` (rows y+dy, then y-dy) that lie in `k`. */
  function KnightColumn(x: int, y: int, n: int, k: set<Sq>): set<Sq> {
    Jump(x + KnightDx(n), y + KnightDy(n)) * k + Jump(x + KnightDx(n), y - KnightDy(n)) * k
  }

  /** What the knight generator lists from its first `n` columns. */
  function KnightChain(x: int, y: int, n: nat, k: set<Sq>): set<Sq> {
    if n == 0 then {} else KnightChain(x, y, n - 1, k) + KnightColumn(x, y, n - 1, k)
  }

  lemma KnightColumnIff(x: int, y: int, n: int, k: set<Sq>, t: Sq)
    ensures t in KnightColumn(x, y, n, k) <==>
      t in k && InBoard(t.x, t.y) && t.x - x == KnightDx(n) && (t.y - y == KnightDy(n) || t.y - y == -KnightDy(n))
  {
  }

  /** The four columns together list exactly the knight's jumps that lie in `k`. */
  lemma KnightScan(x: int, y: int, k: set<Sq>)
    ensures KnightChain(x, y, 4, k) == KnightJumps(x, y) * k
  {
    assert KnightChain(x, y, 1, k) == {} + KnightColumn(x, y, 0, k);
    assert KnightChain(x, y, 2, k) == KnightChain(x, y, 1, k) + KnightColumn(x, y, 1, k);
    assert KnightChain(x, y, 3, k) == KnightChain(x, y, 2, k) + KnightColumn(x, y, 2, k);
    assert KnightChain(x, y, 4, k) == KnightChain(x, y, 3, k) + KnightColumn(x, y, 3, k);
    forall t
      ensures t in KnightChain(x, y, 4, k) <==> t in KnightJumps(x, y) * k
    {
      KnightJumpsIff(x, y, t);
      KnightColumnIff(x, y, 0, k, t);
      KnightColumnIff(x, y, 1, k, t);
      KnightColumnIff(x, y, 2, k, t);
      KnightColumnIff(x, y, 3, k, t);
    }
  }

  /** The squares of a list of tiles, as a set. */
  function Squares(ts: seq<Sq>): set<Sq> {
    if ts == [] then {} else Squares(ts[..|ts| - 1]) + {ts[|ts| - 1]}
  }

  lemma {:induction false} SquaresIn(ts: seq<Sq>, t: Sq)
    ensures t in Squares(ts) <==> t in ts
  {
    if ts != [] {
      SquaresIn(ts[..|ts| - 1], t);
      assert ts == ts[..|ts| - 1] + [ts[|ts| - 1]];
    }
  }

  lemma SquaresEmpty(ts: seq<Sq>)
    ensures Squares(ts) == {} <==> |ts| == 0
  {
    if ts != [] {
      SquaresIn(ts, ts[0]);
    }
  }

  lemma SquaresSnoc(ts: seq<Sq>, t: Sq)
    ensures Squares(ts + [t]) == Squares(ts) + {t}
  {
    assert (ts + [t])[..|ts|] == ts;
  }

  lemma {:induction false} SquaresAppend(ts: seq<Sq>, us: seq<Sq>)
    ensures Squares(ts + us) == Squares(ts) + Squares(us)
  {
    if us == [] {
      assert ts + us == ts;
    } else {
      var n := |us| - 1;
      assert (ts + us)[..|ts + us| - 1] == ts + us[..n];
      SquaresAppend(ts, us[..n]);
    }
  }
}
