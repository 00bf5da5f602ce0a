# Tile-board chess revisions, modelled in Dafny

The repository holds four successive revisions of a tile-based chess board
written in C#. Each revision is a module of its own here:

- `Draft` (`draft.dfy`) is the first board, in `ChessEngine/Program.cs`.
  Tiles are value structs in an 8×8 array. A piece keeps a copy of the tile
  it was created on, and `getMoves` lists pseudo-legal destinations. The
  rays use the direction flags `u`, `d`, `l`, `r`, `ul`, `ur`, `dl`, `dr`.
- `TrialGame` (`trial_game.dfy`) is the game in `ChessGame.cs`. It has two
  arrays of sixteen nullable pieces. Legality is decided by a trial move that
  is undone afterwards (`moveCheck`, `checkCheck`). A capture nulls an array
  slot. `update` decomposes typed Standard Algebraic Notation.
- `EngineGame` (`engine_game.dfy`) is the game in `ChessEngine/ChessGame.cs`.
  It adds the `moved` flag, castling, en passant, promotion and a move record
  with disambiguation.
- `Controller` (`controller.dfy`) is the `BoardController` in
  `ChessEngine/BoardController.cs`.
  - Positions load from Forsyth–Edwards Notation.
  - Pieces sit in per-team lists.
  - Moves are long-algebraic strings such as `e2e4` or `e7e8q`.
  - `Update` ends the game on checkmate, on no legal moves, or at 100 half
    moves.

Two more modules hold what the revisions share:

- `Geometry` (`geometry.dfy`): squares and their names, the grid, rays, the
  king and knight patterns, and the `control` bitmask of the ray loops.
- `Fen` (`fen.dfy`): the text primitives `LoadFEN` relies on. These are
  `string.Split`, `int.Parse` on digits, 32-bit `int` and 16-bit `char`
  arithmetic, `new string(c, n)`, and the placement cursor.

How the source is modelled:

- A tile never changes its coordinates, so a tile is its square. The grid
  records which piece each tile points at.
- A piece object is named by its identity. In the array revisions that is
  the slot `Id(side, index)` it was created in. In the controller it is an
  index into an arena of pieces.
- Whatever changes in place is a Dafny `class` whose methods follow the
  source step by step: tile writes, slot nulling, list removal, move-list
  appends. Each method is proved against a specification function of the
  old state: `Apply`, `Moved`, `Play`, `Loaded`.
- Between moves the controller keeps an invariant, `Settled`: every tile
  names the piece standing on it, and every listed piece stands on its
  tile, plays for its list's team, is listed once and can list its moves.
  LoadFEN establishes it, and a move that takes only the opponent's pieces
  keeps it (`PlayReady`).
- Move generation is a set of target squares (`Targets`, `AllTargets`,
  `AllMoves`). Each generator method is proved to list exactly that set.
  The ray loops keep their `control` bitmask, modelled as the set of its
  bits.
- Out-of-range accesses in the source are preconditions: a missing piece,
  an index past the board, the `i <= 16` scans.

The source's quirks are modelled as written:

- The queen and bishop loops run six rounds; the rook in `BoardController`
  runs seven.
- Both castling branches of `BoardController` list the c-file square.
- `BoardController.MovePiece` recomputes `enPassant` after the piece has
  moved, so the flag always ends false.
- The en-passant field of a FEN string is stored through
  `new string(char, count)`.
- `ChessGame.cs` and `ChessEngine/ChessGame.cs` guard the knight's last
  pair of jumps with `x - 1 < 8`.
- The unmoved pawn's double push in `ChessEngine/ChessGame.cs` looks
  neither at the square between nor at the board's edge.
- The en-passant test looks only at the file of the last record.
- Queen-side castling marks slot 7 as moved, not slot 0.
- An en-passant capture is recorded without its `x`.

## Model

| member | source | states |
|---|---|---|
| Geometry.SquaresIn | ChessGame.cs:164 | `List.Contains` on a tile list: a square is in the set of listed squares exactly when it is in the list |
| Geometry.SquareName | ChessEngine/BoardController.cs:296 | `Tile.ToString`: two characters, a file letter `'a' + x` then a rank digit `'1' + y` |
| Geometry.SquareAt | ChessEngine/BoardController.cs:154-155 | reading `s[i] - 'a'`, `s[i+1] - '1'` gives an on-board square exactly when the two characters are a file letter and a rank digit |
| Geometry.SquareNameRead | ChessEngine/BoardController.cs:154-155 | reading back a printed square gives the square, for every on-board square |
| Geometry.SquareReadName | ChessEngine/BoardController.cs:296 | printing a square read from a file letter and a rank digit gives the two characters back |
| Geometry.SetCellRestore | ChessEngine/BoardController.cs:93-104 | writing two cells and writing back their old contents restores the grid, which is what a trial move relies on |
| Geometry.Reached | ChessEngine/BoardController.cs:383-617 | (definition) the squares `n` rounds of a sliding loop reach along one direction, stopping after the first occupied square |
| Geometry.ReachedOnRay | ChessEngine/BoardController.cs:383-617 | a square a ray reaches lies on the ray within `n` steps and on the board, and every square before it is empty |
| Geometry.ReachedComplete | ChessEngine/BoardController.cs:383-617 | every on-board ray square whose predecessors are all empty is reached |
| Geometry.ReachedIff | ChessEngine/BoardController.cs:383-617 | ray membership in both directions: within `n` steps, on the board, and every earlier square empty |
| Geometry.ReachedStops | ChessEngine/BoardController.cs:383-617 | a ray never goes past the first occupied square it meets |
| Geometry.ReachedCount | ChessEngine/BoardController.cs:384-556 | a loop of `n` rounds reaches at most `n` squares along one direction |
| Geometry.KingSquares | ChessEngine/BoardController.cs:338-353 | the king loops visit exactly the on-board neighbours of the king, without its own square |
| Geometry.QueenStep | ChessEngine/BoardController.cs:383-497 | the queen's eight probes per round, in the source's order |
| Geometry.ProbeFlag | ChessEngine/BoardController.cs:388-399 | after a probe the ray's `control` bit is set exactly when the ray is still open |
| Geometry.ProbeSeen | ChessEngine/BoardController.cs:388-399 | a probe visits its square exactly when that square is the next one on an open ray |
| Geometry.AllBitsOpen | ChessEngine/BoardController.cs:333 | `control = 0b11111111` starts with every ray open |
| Geometry.LineRound | ChessEngine/BoardController.cs:499-553 | one round of the rook loop keeps the four flags in step with the open rays and visits the next square of each |
| Geometry.DiagonalRound | ChessEngine/BoardController.cs:556-616 | one round of the bishop loop, likewise for the four diagonals |
| Geometry.QueenFlags | ChessEngine/BoardController.cs:384-496 | the eight probes of a queen round each read their bit as "ray open", and leave every bit telling whether its ray is still open |
| Geometry.QueenRound | ChessEngine/BoardController.cs:384-496 | one round of the queen loop visits the next square of each open ray |
| Geometry.KingScan | ChessEngine/BoardController.cs:338-353 | the two nested king loops list exactly the king squares kept by the mode's filter |
| Geometry.KnightScan | ChessEngine/BoardController.cs:618-695 | the four guarded column pairs list exactly the knight jumps kept by the mode's filter |
| Fen.Split | ChessEngine/BoardController.cs:29-30 | `Split` gives at least one piece and no piece holds the separator |
| Fen.JoinSplit | ChessEngine/BoardController.cs:29-30 | joining the pieces of a split with the separator gives the string back |
| Fen.SplitJoin | ChessEngine/BoardController.cs:29-30 | splitting separator-free pieces joined by the separator gives the pieces back |
| Fen.SplitPlain | ChessEngine/BoardController.cs:30 | a string without the separator splits into itself |
| Fen.ConcatSplit | ChessEngine/BoardController.cs:30-34 | walking the rows of the placement field in turn walks the field with the `/` left out |
| Fen.Decimal | ChessEngine/BoardController.cs:50-51 | the decimal digits of a number, without leading zeros |
| Fen.ValueDecimal | ChessEngine/BoardController.cs:50-51 | `int.Parse` of the digits of a number gives the number back |
| Fen.Wrap32 | ChessEngine/BoardController.cs:50 | C# `int` arithmetic wraps into [-2^31, 2^31) and keeps values already in range |
| Fen.Char16 | ChessEngine/BoardController.cs:60 | a cast to `char` keeps the low 16 bits |
| Fen.Repeat | ChessEngine/BoardController.cs:60 | `new string(c, n)` is `n` copies of `c` |
| Fen.CursorSquares | ChessEngine/BoardController.cs:43-45 | the first 64 cursor values name the 64 squares `(i % 8, 7 - i / 8)`, each once |
| Controller.Text | ChessEngine/BoardController.cs:700-708 | a listed move's text: origin name, target name, and `q` after a push onto the last rank |
| Controller.TextRead | ChessEngine/BoardController.cs:154-162 | parsing the text of a move recovers its origin, its target and its suffix |
| Controller.TextInjective | ChessEngine/BoardController.cs:164 | two listed moves with the same text are the same move, so comparing strings compares moves |
| Controller.NameInjective | ChessEngine/BoardController.cs:296 | two squares with the same name are the same square |
| Controller.TailNames | ChessEngine/BoardController.cs:130 | `move[2..]` is a square's name exactly when the move ends there without a suffix |
| Controller.HeadNames | ChessEngine/BoardController.cs:125 | `move[..2]` is a square's name exactly when the move starts there |
| Controller.TileCheck | ChessEngine/BoardController.cs:316-327 | 0 for a tile of `team`, 1 for another team's piece, 2 for an empty tile, each both ways |
| Controller.KingFrom | ChessEngine/BoardController.cs:114-121 | a tile is found exactly when the team's list holds a king from index `i` on, and it is the tile of the first such entry |
| Controller.Trial | ChessEngine/BoardController.cs:93-98 | the trial position: the piece leaves its tile, points at `t`, and `t` points at it |
| Controller.KeptIff | ChessEngine/BoardController.cs:346-351 | a visited square is kept in attack mode, and in legal mode exactly when it is not the mover's team and the trial is safe |
| Controller.CandidatesOnBoard | ChessEngine/BoardController.cs:329-741 | every square a generator visits is on the board |
| Controller.Candidates | ChessEngine/BoardController.cs:329-741 | (definition) the squares each generator visits: king neighbours, six queen rounds, seven rook rounds, six bishop rounds, knight jumps, pawn diagonals |
| Controller.Castles | ChessEngine/BoardController.cs:355-380 | (definition) for an unmoved king not in check, c1/c8 once per passing branch, the king-side branch included |
| Controller.InCheck | ChessEngine/BoardController.cs:109-136 | (definition) some attack-mode move of the other side, not starting on the skipped tile, ends on the tile of the team's first listed king |
| Controller.PseudoListed | ChessEngine/BoardController.cs:329-741 | in attack mode a piece lists every square its generator visits, none with a suffix |
| Controller.AllMovesPseudo | ChessEngine/BoardController.cs:141-149 | `GetMoves(side, false)` lists exactly the attack-mode moves of the side's pieces |
| Controller.TargetsOnBoard | ChessEngine/BoardController.cs:329-741 | every listed target is on the board |
| Controller.AllMovesOnBoard | ChessEngine/BoardController.cs:141-149 | every listed move starts on its piece's tile, ends on the board and has a text |
| Controller.LegalNeverOwn | ChessEngine/BoardController.cs:346-351 | in legal mode a non-pawn never lists a tile of its own team (castling aside), and every such move passes the trial |
| Controller.CastlesOnC | ChessEngine/BoardController.cs:362-379 | both castling branches list the c-file square; the king-side branch never looks at that square's tile |
| Controller.SliderRange | ChessEngine/BoardController.cs:383-617 | a ray lists a square only over empty squares: at most six for the queen and bishop, seven for the rook |
| Controller.PawnPushes | ChessEngine/BoardController.cs:698-717 | a push lands on an empty tile straight ahead; a double push needs an unmoved pawn whose single push is listed, and an empty tile two ahead |
| Controller.PawnDiagonals | ChessEngine/BoardController.cs:719-736 | a diagonal goes one file aside onto the rank ahead, onto another team's piece or onto the file the en-passant test names |
| Controller.DiagonalMember | ChessEngine/BoardController.cs:719-736 | a listed diagonal is on the board, passes the trial, and holds an opponent or is the en-passant file |
| Controller.PawnAttackOnly | ChessEngine/BoardController.cs:698-736 | in attack mode a pawn lists exactly the on-board diagonals ahead and never its push |
| Controller.SpellSet | ChessEngine/BoardController.cs:350 | the spelled move list is exactly the moves to the listed squares |
| Controller.CsMod | ChessEngine/BoardController.cs:56 | C#'s `%` truncates toward zero: the result has the dividend's sign and reconstructs the dividend |
| Controller.TailsAttacked | ChessEngine/BoardController.cs:357-361 | the cut texts contain a back-rank square's name exactly when an attack-mode move ends there without a suffix |
| Controller.MovesOnBoard | ChessEngine/BoardController.cs:357-361 | every move of a generated list has a text |
| Controller.Spell | ChessEngine/BoardController.cs:700-708 | one move per listed square, in order: from the piece's tile to the square, with `q` exactly on a pawn's last-rank push |
| Controller.Upper | ChessEngine/BoardController.cs:42-43 | on the ASCII letters, `char.ToUpper` shifts a lower-case letter down by 32 to its upper-case letter; the model leaves every other character alone |
| Controller.Tails | ChessEngine/BoardController.cs:358-361 | the castling test cuts each of the other team's texts to `[2..]`, keeping the list's length |
| Controller.Without | ChessEngine/BoardController.cs:182 | `List.Remove` takes out the first occurrence of `v` and nothing else |
| Controller.WithoutCount | ChessEngine/BoardController.cs:182 | removal takes exactly one copy of a present element out, and changes nothing otherwise |
| Controller.WithoutGone | ChessEngine/BoardController.cs:205 | from a list without duplicates the removed element disappears |
| Controller.WithoutSplit | ChessEngine/BoardController.cs:205 | removal splices the list around the first occurrence |
| Controller.PawnPart | ChessEngine/BoardController.cs:169-191 | the pawn branch resets the half-move counter, takes an en-passant victim off its tile and out of the list of `opp`, and promotes on the last rank |
| Controller.CastleRook | ChessEngine/BoardController.cs:215-221 | castling moves the piece on the corner tile to the landing tile and empties the corner |
| Controller.CastleRookKeeps | ChessEngine/BoardController.cs:215-221 | the castling branch changes no piece other than the corner's rook |
| Controller.Moved | ChessEngine/BoardController.cs:169-226 | the fields after the pawn branch, the capture, the castling rook and the relocation keep every referenced piece placed |
| Controller.PawnPartSane | ChessEngine/BoardController.cs:169-191 | the pawn branch keeps every referenced piece placed, so CheckCheck can run afterwards |
| Controller.CaptureSane | ChessEngine/BoardController.cs:197-209 | the capture keeps every referenced piece placed |
| Controller.RelocateSane | ChessEngine/BoardController.cs:223-226 | the relocation keeps every referenced piece placed |
| Controller.NotationEnd | ChessEngine/BoardController.cs:211-221 | the text before the check mark is never empty and never ends in `+`: it ends in `O` or in the target's rank digit |
| Controller.PlayLands | ChessEngine/BoardController.cs:223-226 | the piece stands on the target, points at it and is marked moved; except in a castling its old tile is empty |
| Controller.RelocateLands | ChessEngine/BoardController.cs:223-226 | the relocation puts the piece on `t`, marks it moved and clears its old tile |
| Controller.PlayPromotes | ChessEngine/BoardController.cs:187-190 | a pawn reaching its last rank takes the promotion letter; every other move keeps the kind |
| Controller.PlayKeepsOthers | ChessEngine/BoardController.cs:169-226 | pieces other than the mover and a castling rook keep their records |
| Controller.PlayCaptures | ChessEngine/BoardController.cs:197-209 | a captured piece's first entry leaves the list of `opp`, for good when listed once; the other list is untouched |
| Controller.PlayPassing | ChessEngine/BoardController.cs:179-184 | en passant takes the piece behind the target off its tile and out of the list of `opp` |
| Controller.PlayHalfMoves | ChessEngine/BoardController.cs:169-200 | the half-move counter restarts on a pawn move or a capture and is kept otherwise |
| Controller.PlayCastles | ChessEngine/BoardController.cs:215-221 | in a castling the corner's piece stands on the landing tile and the corner is empty; the text is `O-O-O` or `O-O` |
| Controller.PlayRecords | ChessEngine/BoardController.cs:228-243 | exactly one text is appended, ending in `+` exactly when `opp` is in check afterwards, and the en-passant flag ends false |
| Controller.Play | ChessEngine/BoardController.cs:152-245 | (definition) the fields after a successful MovePiece: the four steps of `Moved`, then the text with `+` when `opp` is in check appended, and the en-passant flag off |
| Controller.Capture | ChessEngine/BoardController.cs:197-209 | (definition) a piece on the target leaves the list of `opp` and the half-move counter restarts; an empty target changes nothing |
| Controller.PawnFirstOrderly | ChessEngine/BoardController.cs:169-191 | in settled fields, the pawn branch removes an en-passant victim of `opp` from its tile and its list and keeps every other listed piece seated |
| Controller.PassantOrderly | ChessEngine/BoardController.cs:179-184 | the en-passant capture takes its victim of `opp` off its tile and out of its list, and every other listed piece stays seated, listed once and generable |
| Controller.PassantTiles | ChessEngine/BoardController.cs:183 | clearing the victim's tile keeps every tile naming the piece on it, and the mover, one file away, keeps its tile |
| Controller.PassantLists | ChessEngine/BoardController.cs:182 | after the victim leaves the list of `opp`, every piece still listed is seated, of its list's team, listed once and as generable as before |
| Controller.OrderlyRekind | ChessEngine/BoardController.cs:187-190 | promotion changes only the mover's type, which keeps the lists in order |
| Controller.CaptureOrderly | ChessEngine/BoardController.cs:197-209 | the capture takes the target's piece of `opp` out of its list, so no listed piece but the mover stands on the target |
| Controller.CastleOrderly | ChessEngine/BoardController.cs:214-221 | a castling rook moves from its corner to an empty landing tile and every listed piece stays seated |
| Controller.RelocateSettled | ChessEngine/BoardController.cs:223-226 | once the target holds no other listed piece, moving the mover there leaves the fields settled |
| Controller.PlayReady | ChessEngine/BoardController.cs:152-245 | a move that takes only pieces of `opp` and castles onto an empty landing tile keeps the fields settled, so GetMoves(side, true), which `Update` calls, can run for both sides |
| Controller.WithoutOnce | ChessEngine/BoardController.cs:182 | removing a piece from a list that holds each entry once drops the piece and keeps the rest once |
| Controller.ListedOnBoard | ChessEngine/BoardController.cs:329-741 | every move a piece lists has a text |
| Controller.AcceptsIff | ChessEngine/BoardController.cs:164 | searching the list of texts for the string is the acceptance test, both ways |
| Controller.AcceptedPassing | ChessEngine/BoardController.cs:179-183 | an accepted pawn move one file aside onto an empty tile lands on the rank ahead, so the tile behind it is on the board |
| Controller.Contains | ChessEngine/BoardController.cs:164 | `List.Contains` on the move texts, both ways |
| Controller.RemoveFirst | ChessEngine/BoardController.cs:201-208 | the capture loop removes the first entry equal to `v`, as `List.Remove` does |
| Controller.NoneListed | ChessEngine/BoardController.cs:247-254 | a move list is empty exactly when its set of moves is |
| Controller.SafeTrial | ChessEngine/BoardController.cs:91-107 | `Safe` in terms of a trial position computed beforehand |
| Controller.PlaceChar | ChessEngine/BoardController.cs:36-46 | a skip digit moves the cursor; any other character adds a piece of the upper-cased type on the cursor's tile at the end of its team's list |
| Controller.Places | ChessEngine/BoardController.cs:32-48 | the layout after reading the placement field from empty tiles and lists |
| Controller.FitsPrefix | ChessEngine/BoardController.cs:32-48 | a prefix of a placement field that fits the board fits too |
| Controller.PlaceCharConsistent | ChessEngine/BoardController.cs:41-45 | one character keeps the layout invariant, and unmoved pawns on their home rank |
| Controller.PlaceCharPieces | ChessEngine/BoardController.cs:43-45 | a new piece stands on the cursor's empty tile at the end of its team's list; the others stay |
| Controller.PlaceCharCells | ChessEngine/BoardController.cs:45 | every occupied tile still names a piece standing on it |
| Controller.PlaceCharLists | ChessEngine/BoardController.cs:44 | each list still holds, in increasing order, pieces of its own team |
| Controller.PlacesConsistent | ChessEngine/BoardController.cs:32-48 | every layout the placement loops build keeps the invariant |
| Controller.PlacesPiece | ChessEngine/BoardController.cs:41-45 | the piece a character makes: upper-cased type, team by case, the cursor's square, and the `moved` flag of line 42 |
| Controller.Rights | ChessEngine/BoardController.cs:63-73 | the castling loop re-flags pieces without adding or removing any |
| Controller.RightsIff | ChessEngine/BoardController.cs:63-73 | after the castling field a piece is unmoved exactly when it was, or it is a rook on a corner the field names |
| Controller.RightsHome | ChessEngine/BoardController.cs:63-73 | the castling field only touches rooks, so unmoved pawns stay on their home rank |
| Controller.LoadedReady | ChessEngine/BoardController.cs:27-74 | a loaded position is sane, every listed piece sits on its tile, each list holds each piece once, and a side can list legal moves when the en-passant record is readable or the side has no pawn |
| Controller.Loaded | ChessEngine/BoardController.cs:27-74 | (definition) the fields and turn LoadFEN leaves: the placement, the castling rights, the half-move field, the en-passant text and the turn |
| Controller.LoadedSettled | ChessEngine/BoardController.cs:27-74 | a loaded position is settled: every tile names the piece on it, and every listed piece sits on its tile, plays for its list's team, is listed once and can generate |
| Controller.LayoutSettled | ChessEngine/BoardController.cs:27-74 | a consistent layout whose arena is only re-flagged by the castling field is settled |
| Controller.LayoutReady | ChessEngine/BoardController.cs:27-74 | a consistent layout, only re-flagged, with unmoved pawns at home, is ready for generation |
| Controller.LayoutSeated | ChessEngine/BoardController.cs:63-73 | re-flagging keeps every piece on the tile that names it |
| Controller.LoadedTurn | ChessEngine/BoardController.cs:50-51 | the turn counter gives back the side to move and the full-move number; the half-move counter is the fifth field |
| Controller.LoadedPassing | ChessEngine/BoardController.cs:53-61 | without an en-passant field the flag is off and nothing is recorded; otherwise the flag is on and the last text starts with the field's file letter |
| Controller.BoardController.constructor | ChessEngine/BoardController.cs:15-25 | the controller holds exactly the fields `Loaded(fen)` describes, and the game is not over |
| Controller.BoardController.LoadFEN | ChessEngine/BoardController.cs:27-74 | LoadFEN's writes produce exactly `Loaded(fen)`: placement, turn, half-move counter, en-passant text, castling rights |
| Controller.BoardController.ReadPassing | ChessEngine/BoardController.cs:53-61 | the flag is raised exactly when the field is not `-`, and the move list gets the padding and the `new string` text |
| Controller.BoardController.PlaceRows | ChessEngine/BoardController.cs:32-48 | the row loop builds exactly `Places` of the concatenated rows |
| Controller.BoardController.PlaceRow | ChessEngine/BoardController.cs:34-47 | the character loop of one row extends the layout by that row |
| Controller.BoardController.ReadChar | ChessEngine/BoardController.cs:36-46 | one iteration of the character loop is `PlaceChar` |
| Controller.BoardController.GrantRights | ChessEngine/BoardController.cs:63-73 | the castling loop produces `Rights` of the field |
| Controller.BoardController.MoveCheck | ChessEngine/BoardController.cs:91-107 | every field is as before the call, and the result is `Safe`: CheckCheck on the trial position, with the captured piece's moves skipped |
| Controller.BoardController.PlaceTrial | ChessEngine/BoardController.cs:93-98 | the piece's old tile is cleared, the piece stands on `t` and `t` names it: the position becomes `Trial` of the old one, and the tile's old occupant is returned |
| Controller.BoardController.PutBack | ChessEngine/BoardController.cs:102-104 | putting the piece and the old occupant back restores the grid and the arena |
| Controller.BoardController.CheckCheck | ChessEngine/BoardController.cs:109-136 | nothing changes, and the result is true exactly when an attack-mode move not starting on the captured piece's tile ends on the first king's tile |
| Controller.BoardController.KingTile | ChessEngine/BoardController.cs:112-121 | the name of the tile of the first king listed for the team, "" when the list holds no king |
| Controller.BoardController.Attacked | ChessEngine/BoardController.cs:123-135 | true exactly when some move not starting on the skipped tile ends on the king's tile; with no king ("") no move matches |
| Controller.BoardController.GetMoves | ChessEngine/BoardController.cs:141-149 | nothing changes, and the listed moves are exactly `AllMoves` of the team |
| Controller.BoardController.PieceMoves | ChessEngine/BoardController.cs:329-741 | nothing changes, and the listed moves are exactly `Listed` of the piece |
| Controller.BoardController.Visit | ChessEngine/BoardController.cs:346-351 | one visited king or knight tile is appended exactly when the mode's filter keeps it |
| Controller.BoardController.Probe | ChessEngine/BoardController.cs:388-399 | one probe updates its bit as `ProbeFlag` says and appends exactly the kept square it sees |
| Controller.BoardController.KingMoves | ChessEngine/BoardController.cs:338-382 | the king's moves are its kept neighbours plus, in legal mode, its castling squares |
| Controller.BoardController.KingRow | ChessEngine/BoardController.cs:340-352 | the inner loop over column `i` appends exactly that column's kept squares |
| Controller.BoardController.KingCastles | ChessEngine/BoardController.cs:355-380 | the castling part lists exactly the c-file square per passing branch, for an unmoved king not in check |
| Controller.BoardController.CastleTest | ChessEngine/BoardController.cs:362-377 | one branch's test reads the corner tile's piece and the two back-rank squares |
| Controller.BoardController.QueenMoves | ChessEngine/BoardController.cs:383-497 | the queen's six rounds list exactly the kept squares of its reach |
| Controller.BoardController.QueenIteration | ChessEngine/BoardController.cs:385-496 | one queen round keeps the bits in step and extends the reach by one square per open ray |
| Controller.BoardController.RookMoves | ChessEngine/BoardController.cs:498-554 | the rook's seven rounds list exactly the kept squares of its lines |
| Controller.BoardController.BishopMoves | ChessEngine/BoardController.cs:555-617 | the bishop's six rounds list exactly the kept squares of its diagonals |
| Controller.BoardController.KnightMoves | ChessEngine/BoardController.cs:618-695 | the knight lists exactly its kept jumps |
| Controller.BoardController.KnightTwo | ChessEngine/BoardController.cs:618-695 | two guarded columns extend the list by their kept jumps |
| Controller.BoardController.KnightPair | ChessEngine/BoardController.cs:619-637 | one guarded column appends its kept jumps, rows y + dy then y - dy |
| Controller.BoardController.PawnMoves | ChessEngine/BoardController.cs:696-738 | the pawn lists exactly its pushes (legal mode only) and its kept diagonals, when the rank ahead is on the board |
| Controller.BoardController.PawnPushes | ChessEngine/BoardController.cs:700-717 | the push with its `q` suffix on the last rank, then the double push of an unmoved pawn, in legal mode only |
| Controller.BoardController.Push | ChessEngine/BoardController.cs:712 | nothing changes; true exactly when the tile is empty and the trial leaves the team out of check (`Pushes`) |
| Controller.BoardController.PawnDiagonal | ChessEngine/BoardController.cs:719-736 | one diagonal is listed when the trial is safe and it holds another team or matches the en-passant file |
| Controller.BoardController.CheckMate | ChessEngine/BoardController.cs:247-254 | nothing changes; the result is true exactly when the side to move is in check and has no legal move |
| Controller.BoardController.Update | ChessEngine/BoardController.cs:76-88 | once over, true and nothing changes; otherwise turn and half-move counter grow by one as 32-bit `int`s (wrapping at 2^31) and the game ends on checkmate, no legal move, or 100 half moves |
| Controller.BoardController.NextTurn | ChessEngine/BoardController.cs:80-87 | the part of Update while the game goes on: both counters step by one with 32-bit wrap-around, and the verdict is `Judge` of the new state |
| Controller.BoardController.Judge | ChessEngine/BoardController.cs:82-87 | `checkMate` and `gameOver` are set as `Ended` says, and the position is unchanged |
| Controller.BoardController.MovePiece | ChessEngine/BoardController.cs:152-245 | false with nothing changed exactly when the string is not a legal move text of the piece; otherwise the fields become `Play` of the old ones |
| Controller.BoardController.Listing | ChessEngine/BoardController.cs:164 | the acceptance test computes `Accepts` and changes nothing |
| Controller.BoardController.Apply | ChessEngine/BoardController.cs:166-244 | after acceptance the fields become `Play` of the old ones |
| Controller.BoardController.Announce | ChessEngine/BoardController.cs:228-243 | the check mark, the recorded text and the recomputed flag, as `Play` describes |
| Controller.BoardController.Steps | ChessEngine/BoardController.cs:166-226 | the pawn branch to the relocation produce `Moved` and the text up to its check mark |
| Controller.BoardController.Front | ChessEngine/BoardController.cs:166-212 | the pawn branch and the capture, with the text before the target's name |
| Controller.BoardController.Rear | ChessEngine/BoardController.cs:214-226 | the castling rook and the relocation |
| Controller.BoardController.PawnStep | ChessEngine/BoardController.cs:169-191 | the pawn branch produces `PawnPart` |
| Controller.BoardController.CaptureStep | ChessEngine/BoardController.cs:197-209 | a piece on the target leaves the list of `opp` |
| Controller.BoardController.CastleStep | ChessEngine/BoardController.cs:215-221 | the castling branch produces `CastleRook` |
| Controller.BoardController.RelocateStep | ChessEngine/BoardController.cs:223-226 | the old tile is cleared, the piece and the target point at each other, and the piece is marked moved |
| TrialGame.TileCheck | ChessGame.cs:339-350 | 0 for a tile of `team`, 1 for another team's piece, 2 for an empty tile, each both ways |
| TrialGame.Trial | ChessGame.cs:145-150 | the trial position keeps the links, and keeps every slot's liveness and the other side's slots |
| TrialGame.KeptIff | ChessGame.cs:372-376 | a visited square is kept in attack mode, and in legal mode exactly when it is not own and the trial is safe |
| TrialGame.CandidatesOnBoard | ChessGame.cs:352-755 | every square a generator visits is on the board |
| TrialGame.Candidates | ChessGame.cs:352-755 | (definition) the squares each generator visits, with six rounds for every sliding piece |
| TrialGame.Targets | ChessGame.cs:352-755 | (definition) the visited squares the piece keeps: all in attack mode, the legal-mode test otherwise |
| TrialGame.PseudoTargets | ChessGame.cs:372-373 | in attack mode a piece lists every square its generator visits |
| TrialGame.AllTargetsPseudo | ChessGame.cs:174-185 | `getMoves(side, false)` lists exactly the attacked squares |
| TrialGame.LegalNeverOwn | ChessGame.cs:372-376 | in legal mode no tile of the mover's team is listed, and every listed move is safe |
| TrialGame.PawnSquaresIff | ChessGame.cs:717-752 | a pawn visits one ahead, two ahead from its start rank, and the diagonals forward |
| TrialGame.PawnDoubleFromStart | ChessGame.cs:725-733 | the double push is only considered from y=1 (team 0) or y=6 (team 1) |
| TrialGame.PawnLegalTiles | ChessGame.cs:719-751 | in legal mode a pawn goes diagonally only onto an enemy and straight only onto an empty tile |
| TrialGame.SliderRange | ChessGame.cs:380-630 | a slider lists a square only over empty squares and at most six squares out |
| TrialGame.SliderLines | ChessGame.cs:503-630 | rook targets share a file or rank; bishop targets share a diagonal |
| TrialGame.PawnScan | ChessGame.cs:717-752 | the pawn's kept squares, square by square in the source's order |
| TrialGame.SetSlotRestore | ChessGame.cs:154-156 | writing a slot and writing its old record back restores both arrays, as the trial's undo relies on |
| TrialGame.Apply | ChessGame.cs:195-211 | the piece stands on the target; its old tile is empty; exactly the captured piece's slot is null; nothing else changes |
| TrialGame.TargetNotOrigin | ChessGame.cs:190 | a listed move never targets the piece's own tile |
| TrialGame.ApplyValid | ChessGame.cs:188-212 | a move to another tile keeps every tile–piece link consistent |
| TrialGame.StartValid | ChessGame.cs:11-54 | every tile of the start position points at a piece standing on it, and every piece's tile points back |
| TrialGame.StartLayout | ChessGame.cs:11-54 | sixteen pieces per side; the king in slot 4 on the e-file of its back rank; pawns of slots 8-15 on rank 2 or 7; the middle empty |
| TrialGame.Unchecked | ChessGame.cs:71-74 | stripping one final `+` gives a prefix at most one character shorter |
| TrialGame.Decompose | ChessGame.cs:71-103 | a text decomposes exactly when one of the three patterns matches; then the move names an on-board square and the piece text starts with the input's first character |
| TrialGame.DecomposePieceText | ChessGame.cs:73-99 | every typed piece move decomposes into its letter with its hint and the target's name |
| TrialGame.DecomposePawnMove | ChessGame.cs:71-89 | a typed pawn push decomposes into its file and its square |
| TrialGame.DecomposePawnCapture | ChessGame.cs:72-94 | a typed pawn capture decomposes into its file and the square after the `x` |
| TrialGame.DecomposeRejects | ChessGame.cs:71-103 | for every text: one starting with `O` (castling), one whose last character before an optional `+` is not a rank digit, and one ending in `++` give nothing |
| TrialGame.Game.constructor | ChessGame.cs:11-54 | the game starts at turn 0 with an empty move list in the start position |
| TrialGame.Game.PlacePawns | ChessGame.cs:44-53 | the pawn loop completes the start position |
| TrialGame.Game.MovePiece | ChessGame.cs:188-212 | true exactly when the target is listed; false changes nothing; true leaves `Apply` of the old position |
| TrialGame.Game.Relocate | ChessGame.cs:195-209 | the capture scan and relocation produce `Apply` |
| TrialGame.Game.CheckMate | ChessGame.cs:214-221 | nothing changes; true exactly when the side to move is in check and lists no legal move |
| TrialGame.Game.MoveCheck | ChessGame.cs:143-159 | the game is unchanged after the trial, and the result is `Safe`: not in check in the trial position |
| TrialGame.Game.CheckCheck | ChessGame.cs:161-169 | nothing changes; true exactly when the opponent's attack list contains the tile of slot 4 |
| TrialGame.Game.GetMoves | ChessGame.cs:174-185 | nothing changes; the list holds exactly the targets of the team's live pieces |
| TrialGame.Game.PieceMoves | ChessGame.cs:352-755 | nothing changes; the list holds exactly `Targets` of the piece |
| TrialGame.Game.Visit | ChessGame.cs:371-376 | one visited tile is appended exactly when the mode keeps it |
| TrialGame.Game.PawnVisit | ChessGame.cs:719-724 | one pawn tile is appended exactly when the mode keeps it (empty straight ahead, enemy on a diagonal) |
| TrialGame.Game.Probe | ChessGame.cs:383-398 | one probe updates its bit and appends exactly the kept square it sees |
| TrialGame.Game.KingMoves | ChessGame.cs:361-379 | the king lists exactly its kept neighbours |
| TrialGame.Game.KingRow | ChessGame.cs:364-377 | the inner loop appends column `i`'s kept squares |
| TrialGame.Game.QueenMoves | ChessGame.cs:380-502 | the queen lists exactly the kept squares of its six-round reach |
| TrialGame.Game.QueenIteration | ChessGame.cs:381-501 | one round keeps the bits in step and extends the reach |
| TrialGame.Game.RookMoves | ChessGame.cs:503-563 | the rook lists exactly the kept squares of its six-round lines |
| TrialGame.Game.BishopMoves | ChessGame.cs:564-630 | the bishop lists exactly the kept squares of its six-round diagonals |
| TrialGame.Game.KnightMoves | ChessGame.cs:631-716 | the knight lists exactly its kept jumps, the last pair guarded by `x - 1 < 8` |
| TrialGame.Game.KnightTwo | ChessGame.cs:631-716 | two guarded columns extend the list by their kept jumps |
| TrialGame.Game.KnightPair | ChessGame.cs:632-651 | one guarded column appends its kept jumps |
| TrialGame.Game.PawnMoves | ChessGame.cs:717-752 | the pawn lists exactly its kept squares, in the source's order |
| Draft.Board.constructor | ChessEngine/Program.cs:111-120 | 64 tiles, `tiles[i, k]` at coordinates (i, k), all empty |
| Draft.Game.constructor | ChessEngine/Program.cs:19-46 | pawns on y=1 and y=6; back ranks R N B Q K B N R for both teams; ranks 3-6 empty |
| Draft.KingMoves | ChessEngine/Program.cs:168-183 | king destinations: within one step each way, on the board, not the king's square, not own |
| Draft.KnightMovesIff | ChessEngine/Program.cs:439-488 | knight destinations: exactly the on-board (1, 2) and (2, 1) offsets not holding an own piece |
| Draft.PawnRules | ChessEngine/Program.cs:499-525 | a push goes only onto an empty square; a double push only from the start rank over two empty squares; a diagonal only onto an enemy |
| Draft.RayIff | ChessEngine/Program.cs:185-306 | a ray square is listed exactly when it is reached within `n` steps over empty squares and is not own |
| Draft.RayStopsAtBlocker | ChessEngine/Program.cs:185-306 | the first occupied square is listed exactly when it holds an enemy, and nothing beyond it is |
| Draft.RayDirection | ChessEngine/Program.cs:185-306 | every listed ray square is on the board, not own, and a whole number of steps out |
| Draft.RookOnLines | ChessEngine/Program.cs:309-373 | rook destinations share the rook's file or rank (not both), and are not own |
| Draft.BishopOnDiagonals | ChessEngine/Program.cs:374-438 | bishop destinations lie on a diagonal, differ from the origin, and are not own |
| Draft.MovesAvoidOwn | ChessEngine/Program.cs:154-530 | no piece is ever offered its own square or an own-team square |
| Draft.Probe | ChessEngine/Program.cs:187-201 | one ray step keeps the flag equal to "ray still open" and appends exactly the next square's contribution |
| Draft.Visit | ChessEngine/Program.cs:440-445 | one knight jump appends exactly that jump when on the board and not own |
| Draft.Capture | ChessEngine/Program.cs:509-525 | one pawn diagonal appends exactly an on-board enemy square |
| Draft.GetMoves | ChessEngine/Program.cs:154-530 | the listed tiles are tiles of the board, and their squares are exactly `Moves` of the piece |
| Draft.Moves | ChessEngine/Program.cs:154-530 | (definition) the destinations of each piece type by its case of `getMoves` |
| Draft.PawnMoves | ChessEngine/Program.cs:489-527 | (definition) the pushes and the diagonal captures of a pawn |
| Draft.QueenMoves | ChessEngine/Program.cs:184-308 | (definition) the rook's and the bishop's rays together |
| Draft.ColumnsAll | ChessEngine/Program.cs:169-181 | the two king loops list exactly the king's destinations |
| Draft.KingTiles | ChessEngine/Program.cs:168-183 | the king case lists exactly `KingMoves` |
| Draft.KingColumn | ChessEngine/Program.cs:171-181 | the inner loop appends exactly column `i`'s destinations |
| Draft.Neighbour | ChessEngine/Program.cs:173-180 | one cell is appended unless it is the king's square or own |
| Draft.KnightTiles | ChessEngine/Program.cs:439-488 | the knight case lists exactly `KnightMoves` |
| Draft.Pushes | ChessEngine/Program.cs:499-507 | the push onto an empty square and, from the start rank, the double push |
| Draft.PawnTiles | ChessEngine/Program.cs:489-527 | the pawn case lists exactly `PawnMoves` |
| Draft.RookStep | ChessEngine/Program.cs:312-370 | one rook round keeps the four flags equal to "ray open" and appends the next square of each |
| Draft.BishopStep | ChessEngine/Program.cs:377-435 | one bishop round, likewise for the diagonals |
| Draft.RookTiles | ChessEngine/Program.cs:309-373 | the rook case lists exactly `RookMoves` |
| Draft.BishopTiles | ChessEngine/Program.cs:374-438 | the bishop case lists exactly `BishopMoves` |
| Draft.QueenTiles | ChessEngine/Program.cs:184-308 | the queen case lists exactly the rook's and bishop's moves together |
| EngineGame.TileCheck | ChessEngine/ChessGame.cs:472-483 | 0 for a tile of `team`, 1 for another team's piece, 2 for an empty tile, each both ways |
| EngineGame.Passing | ChessEngine/ChessGame.cs:864-881 | the en-passant reading: off while the flag is down, else the file of the last record's first character, or unreadable |
| EngineGame.SetSlotRestore | ChessEngine/ChessGame.cs:170-172 | writing a slot and writing its old record back restores both arrays, as the trial's undo relies on |
| EngineGame.Trial | ChessEngine/ChessGame.cs:161-166 | the trial position keeps the links, slot liveness, and the other side's slots |
| EngineGame.KeptIff | ChessEngine/ChessGame.cs:503-507 | a visited square is kept in attack mode, and in legal mode exactly when it is not own and the trial is safe |
| EngineGame.CandidatesOnBoard | ChessEngine/ChessGame.cs:485-887 | every square a generator visits is on the board |
| EngineGame.Candidates | ChessEngine/ChessGame.cs:485-887 | (definition) the squares each generator visits, with six rounds for every sliding piece |
| EngineGame.Castles | ChessEngine/ChessGame.cs:511-530 | (definition) for an unmoved king not in check, c1/c8 and g1/g8 by the passing branches |
| EngineGame.PseudoTargets | ChessEngine/ChessGame.cs:503-511 | in attack mode a piece lists every visited square, and a king no castling square |
| EngineGame.AllTargetsPseudo | ChessEngine/ChessGame.cs:190-200 | `GetMoves(side, false)` lists exactly the attacked squares |
| EngineGame.LegalNeverOwn | ChessEngine/ChessGame.cs:503-507 | in legal mode an own tile is listed only as a pawn diagonal on the en-passant file; every non-castling target is safe |
| EngineGame.TargetNotOrigin | ChessEngine/ChessGame.cs:206 | a listed move never targets the piece's own tile |
| EngineGame.CastlesIff | ChessEngine/ChessGame.cs:511-530 | g1/g8 is listed exactly when the king is unmoved and not in check, slot 7 is live and unmoved, and files f and g of the home rank are empty and not attacked; c1/c8 likewise with slot 0 and files d and c |
| EngineGame.CastlesWithin | ChessEngine/ChessGame.cs:511-530 | castling lists only the c- and g-squares of the king's home rank |
| EngineGame.StartPushApplicable | ChessEngine/ChessGame.cs:239-264 | from the start position e2-e4 can be applied although every slot of the other side is full: the capture scan is not run for an empty target |
| EngineGame.PawnSquaresIff | ChessEngine/ChessGame.cs:846-883 | a pawn visits one ahead, two ahead while unmoved, and the diagonals forward, when the rank ahead is on the board |
| EngineGame.PawnLegalTiles | ChessEngine/ChessGame.cs:848-881 | in legal mode straight only onto empty tiles, diagonally onto an enemy or the en-passant file; the double push ignores the square between |
| EngineGame.SliderRange | ChessEngine/ChessGame.cs:533-767 | a slider lists a square only over empty squares and at most six squares out |
| EngineGame.PawnScan | ChessEngine/ChessGame.cs:846-883 | the pawn's kept squares, square by square in the source's order |
| EngineGame.StartValid | ChessEngine/ChessGame.cs:14-57 | every tile of the start position points at a piece standing on it, and every piece's tile points back |
| EngineGame.StartLayout | ChessEngine/ChessGame.cs:14-57 | sixteen unmoved pieces per side; king in slot 4 at (4, 0) or (4, 7); rooks in slots 0 and 7 on the corners; pawns of slots 8-15 on y=1 or y=6 |
| EngineGame.StartReady | ChessEngine/ChessGame.cs:14-57 | from the start both sides can generate in either mode |
| EngineGame.Decompose | ChessEngine/ChessGame.cs:74-121 | the earlier three forms decompose as before; `O-O` and `O-O-O` give `K` and a g- or c-file square on the mover's back rank; other text gives nothing |
| EngineGame.DecomposeCastles | ChessEngine/ChessGame.cs:105-117 | `O-O` names g1/g8 and `O-O-O` c1/c8 by `turn % 2`; castling with `+` is not recognised |
| EngineGame.DecomposeCastleSquares | ChessEngine/ChessGame.cs:105-117 | the squares a typed castling names are the squares the king's generator lists for it |
| EngineGame.Remove | ChessEngine/ChessGame.cs:242-248 | the scan nulls the slot holding `o`; for a null `o` nothing changes |
| EngineGame.PassantCapture | ChessEngine/ChessGame.cs:252-264 | the piece behind the target leaves its slot and its tile is cleared |
| EngineGame.CastleRook | ChessEngine/ChessGame.cs:278-293 | g-file: h-corner cleared, slot 7 to the f-file, moved; otherwise a-corner cleared, slot 0 to the d-file, and slot 7 marked moved |
| EngineGame.Relocate | ChessEngine/ChessGame.cs:295-298 | the piece leaves its tile for the target and is marked moved |
| EngineGame.Promote | ChessEngine/ChessGame.cs:303-318 | a pawn on its last rank takes the chosen letter |
| EngineGame.CastlingQuiet | ChessEngine/ChessGame.cs:511-530 | a listed two-file king move is one of its castlings, onto an empty tile |
| EngineGame.MovableApplicable | ChessEngine/ChessGame.cs:206-298 | every move `movePiece` accepts can be applied: a listed tile other than the origin |
| EngineGame.CaptureKeeps | ChessEngine/ChessGame.cs:239-249 | the capture removes the piece on the target, which is not the mover |
| EngineGame.PassantKeeps | ChessEngine/ChessGame.cs:252-264 | the en-passant branch removes the piece behind the target, which is not the mover |
| EngineGame.Captured | ChessEngine/ChessGame.cs:239-264 | the capture and the en-passant branch keep the arrays' shape and the mover live |
| EngineGame.Capture | ChessEngine/ChessGame.cs:239-249 | (definition) the slot holding the target's piece becomes null; an empty target changes nothing, and the tile is overwritten later by the mover |
| EngineGame.Scans | ChessEngine/ChessGame.cs:239-293 | (definition) what the steps dereference is there: the capture scan only for an occupied target, the en-passant scan only for a pawn stepping aside onto an empty tile, and the castling rook |
| EngineGame.Placed | ChessEngine/ChessGame.cs:268-318 | flag, castling branch, relocation and promotion keep the mover live and the move list |
| EngineGame.Lead | ChessEngine/ChessGame.cs:214-221 | the record starts with the origin file for a pawn changing file, nothing for a straight pawn, the type letter otherwise |
| EngineGame.HintChar | ChessEngine/ChessGame.cs:228-235 | a rival on the mover's file adds the mover's rank, else the mover's file |
| EngineGame.RivalReady | ChessEngine/ChessGame.cs:225-226 | a rival of the mover's type can list its legal moves when the mover can |
| EngineGame.HintAt | ChessEngine/ChessGame.cs:223-236 | a slot adds nothing exactly when it holds no rival listing the target, else one file or rank character |
| EngineGame.HintsStep | ChessEngine/ChessGame.cs:223-236 | the disambiguation loop appends one slot's hint per iteration |
| EngineGame.HintsEmpty | ChessEngine/ChessGame.cs:223-236 | the hints are empty exactly when no rival lists the target |
| EngineGame.HintsChars | ChessEngine/ChessGame.cs:223-236 | the hints hold at most one character per slot, each a file or a rank |
| EngineGame.CastleLinked | ChessEngine/ChessGame.cs:278-293 | the castling branch points the tiles it writes at held pieces |
| EngineGame.RelocateLinked | ChessEngine/ChessGame.cs:295-298 | relocation leaves every tile pointing at a held piece |
| EngineGame.PromoteLinked | ChessEngine/ChessGame.cs:303-318 | promotion keeps the links |
| EngineGame.MovedLinked | ChessEngine/ChessGame.cs:239-320 | after a move every tile points at a held piece, so the final `checkCheck` can run |
| EngineGame.CapturedTiles | ChessEngine/ChessGame.cs:239-264 | after the captures every tile but the target holds a piece standing on it |
| EngineGame.CapturedSettled | ChessEngine/ChessGame.cs:239-264 | after the captures the links agree everywhere but on the target |
| EngineGame.CastleSettled | ChessEngine/ChessGame.cs:278-293 | the castling branch moves the rook to the empty tile beside the king and keeps the links |
| EngineGame.RelocateValid | ChessEngine/ChessGame.cs:295-298 | relocation completes the links |
| EngineGame.PromoteValid | ChessEngine/ChessGame.cs:303-318 | promotion keeps the links |
| EngineGame.PlacedValid | ChessEngine/ChessGame.cs:268-318 | the steps after the captures complete the links |
| EngineGame.Moved | ChessEngine/ChessGame.cs:239-318 | the fields after the captures and the placement steps: arrays still sixteen wide, the mover still live, the move list untouched |
| EngineGame.MovedValid | ChessEngine/ChessGame.cs:239-318 | a listed move keeps every tile–piece link consistent, given a castling rook on its corner |
| EngineGame.MovableTarget | ChessEngine/ChessGame.cs:278-293 | a listed castling goes to the c- or g-square of the back rank, and its rook is not the mover |
| EngineGame.PlacedLands | ChessEngine/ChessGame.cs:295-318 | the mover is on the target, its old tile is empty, it is marked moved, and it promotes on the last rank |
| EngineGame.MovedLands | ChessEngine/ChessGame.cs:239-318 | after a move the piece is on `target`, its origin is empty, `moved` is true, and a pawn on the last rank has the chosen letter |
| EngineGame.MovedCaptures | ChessEngine/ChessGame.cs:239-249 | a piece on the target is no longer in its array |
| EngineGame.MovedPassing | ChessEngine/ChessGame.cs:252-264 | en passant empties the tile behind the target and removes its piece from its array |
| EngineGame.MovedFlag | ChessEngine/ChessGame.cs:268-275 | `enPassant` ends true exactly when a pawn moved two ranks, measured before relocation |
| EngineGame.PlacedCastlesShort | ChessEngine/ChessGame.cs:279-285 | a king-side castling as it stands after the remaining steps |
| EngineGame.PlacedCastlesLong | ChessEngine/ChessGame.cs:286-292 | a queen-side castling as it stands after the remaining steps |
| EngineGame.MovedCastles | ChessEngine/ChessGame.cs:278-293 | target file 6: slot 7 on file 5, moved, file 7 empty; target file 2: slot 0 on file 3, file 0 empty, slot 7 marked moved |
| EngineGame.PlacedKeeps | ChessEngine/ChessGame.cs:268-318 | the steps after the captures write only the origin, target and castling tiles and slots |
| EngineGame.Touched | ChessEngine/ChessGame.cs:239-298 | the tiles a move may write include the origin and the target |
| EngineGame.MovedKeeps | ChessEngine/ChessGame.cs:239-318 | every tile outside `Touched` keeps its piece, and every other piece keeps its record, castling slots aside |
| EngineGame.CapturedKeepsOthers | ChessEngine/ChessGame.cs:239-264 | the captures write only the tile behind an en-passant target and the captured slots |
| EngineGame.PieceRecord | ChessEngine/ChessGame.cs:214-323 | a piece record with at most one hint decomposes into its letter with its hint and the target's name |
| EngineGame.PieceRecordDecomposes | ChessEngine/ChessGame.cs:74-325 | the record of a K, Q, R, B or N move with at most one rival reads back, as typed input, as its letter, hint and target |
| EngineGame.CastleRecord | ChessEngine/ChessGame.cs:105-117 | a castling recorded as `K` and its target reads back as the typed castling of its side does |
| EngineGame.CastleSquare | ChessEngine/ChessGame.cs:511-530 | a listed castling lands on the empty g- or c-square of the king's back rank |
| EngineGame.CastleOpening | ChessEngine/ChessGame.cs:218-221 | a castling with no rival starts its record with `K` alone |
| EngineGame.CastleRecordDecomposes | ChessEngine/ChessGame.cs:105-325 | a recorded king-side castling reads back as typed `O-O` does, a queen-side one as `O-O-O` |
| EngineGame.PushRecord | ChessEngine/ChessGame.cs:90-94 | a pawn push record with no hint reads back as the pawn's file and the target |
| EngineGame.PushQuiet | ChessEngine/ChessGame.cs:848-854 | a listed pawn move along its file lands on an empty tile |
| EngineGame.PawnPushDecomposes | ChessEngine/ChessGame.cs:74-325 | the record of a straight pawn move with no rival reads back as its file and target |
| EngineGame.PawnOpening | ChessEngine/ChessGame.cs:214-217 | a pawn changing file with no rival starts its record with its file alone |
| EngineGame.TakeRecord | ChessEngine/ChessGame.cs:95-99 | a pawn capture record with no hint reads back as the pawn's file and the target |
| EngineGame.PawnCaptureDecomposes | ChessEngine/ChessGame.cs:74-325 | the record of a pawn capture with no rival reads back as its file and target |
| EngineGame.SideStepRecord | ChessEngine/ChessGame.cs:74-121 | a pawn's diagonal recorded without `x` (`ed6`) matches none of the typed forms |
| EngineGame.PassantRecordUnreadable | ChessEngine/ChessGame.cs:239-323 | an en-passant capture, recorded without its `x`, does not decompose |
| EngineGame.Game.constructor | ChessEngine/ChessGame.cs:14-57 | the game starts at turn 0, with an empty record and the flag down, in the start position |
| EngineGame.Game.PlacePawns | ChessEngine/ChessGame.cs:47-56 | the pawn loop completes the start position |
| EngineGame.Game.CheckMate | ChessEngine/ChessGame.cs:329-336 | nothing changes; true exactly when the side to move is in check and lists no legal move |
| EngineGame.Game.MoveCheck | ChessEngine/ChessGame.cs:159-175 | the game is unchanged after the trial, and the result is `Safe`: not in check in the trial position |
| EngineGame.Game.CheckCheck | ChessEngine/ChessGame.cs:177-185 | nothing changes; true exactly when the other team's attack list contains the tile of slot 4 |
| EngineGame.Game.GetMoves | ChessEngine/ChessGame.cs:190-200 | nothing changes; the list holds exactly the targets of the team's live pieces |
| EngineGame.Game.PieceMoves | ChessEngine/ChessGame.cs:485-887 | nothing changes; the list holds exactly `Targets` of the piece |
| EngineGame.Game.Visit | ChessEngine/ChessGame.cs:503-507 | one visited tile is appended exactly when the mode keeps it |
| EngineGame.Game.PawnVisit | ChessEngine/ChessGame.cs:850-881 | one pawn tile is appended when the mode keeps it: empty straight ahead; en-passant file or enemy on a diagonal |
| EngineGame.Game.Probe | ChessEngine/ChessGame.cs:538-551 | one probe updates its bit and appends exactly the kept square it sees |
| EngineGame.Game.KingMoves | ChessEngine/ChessGame.cs:494-509 | the king lists exactly its kept neighbours |
| EngineGame.Game.KingRow | ChessEngine/ChessGame.cs:496-508 | the inner loop appends column `i`'s kept squares |
| EngineGame.Game.KingCastles | ChessEngine/ChessGame.cs:511-530 | in legal mode an unmoved king not in check lists exactly its `Castles` squares |
| EngineGame.Game.CastleTest | ChessEngine/ChessGame.cs:514-528 | one branch's test: slot `slot` unmoved and both squares empty and unattacked |
| EngineGame.Game.QueenMoves | ChessEngine/ChessGame.cs:533-647 | the queen lists exactly the kept squares of its six-round reach |
| EngineGame.Game.QueenIteration | ChessEngine/ChessGame.cs:534-646 | one round keeps the bits in step and extends the reach |
| EngineGame.Game.RookMoves | ChessEngine/ChessGame.cs:648-704 | the rook lists exactly the kept squares of its six-round lines |
| EngineGame.Game.BishopMoves | ChessEngine/ChessGame.cs:705-767 | the bishop lists exactly the kept squares of its six-round diagonals |
| EngineGame.Game.KnightMoves | ChessEngine/ChessGame.cs:768-845 | the knight lists exactly its kept jumps, the last pair guarded by `x - 1 < 8` |
| EngineGame.Game.KnightTwo | ChessEngine/ChessGame.cs:768-845 | two guarded columns extend the list by their kept jumps |
| EngineGame.Game.KnightPair | ChessEngine/ChessGame.cs:769-787 | one guarded column appends its kept jumps |
| EngineGame.Game.PawnMoves | ChessEngine/ChessGame.cs:846-883 | the pawn lists exactly its kept squares when the rank ahead is on the board |
| EngineGame.Game.PawnAhead | ChessEngine/ChessGame.cs:850-863 | the push, then the double push while unmoved |
| EngineGame.Game.PawnSides | ChessEngine/ChessGame.cs:864-881 | the diagonals x+1 then x-1, each when on the board |
| EngineGame.Game.MovePiece | ChessEngine/ChessGame.cs:204-326 | true exactly when the target is listed; false changes nothing; true leaves `Play` of the old fields: the move applied and its record appended |
| EngineGame.Game.StartRecord | ChessEngine/ChessGame.cs:212-236 | the lead and the disambiguation loop build `Opening`, changing nothing |
| EngineGame.Game.Disambiguate | ChessEngine/ChessGame.cs:223-236 | the loop builds exactly `Hints` over all sixteen slots |
| EngineGame.Game.Apply | ChessEngine/ChessGame.cs:212-325 | a listed move leaves `Play` of the old fields |
| EngineGame.Play | ChessEngine/ChessGame.cs:212-325 | (definition) the moved fields with the move's record appended |
| EngineGame.Game.Steps | ChessEngine/ChessGame.cs:239-318 | the steps leave `Moved`; `x` is due exactly when the target held a piece |
| EngineGame.Game.Place | ChessEngine/ChessGame.cs:268-318 | flag, castling branch, relocation and promotion leave `Placed` |
| EngineGame.Game.Scan | ChessEngine/ChessGame.cs:242-262 | the `i <= 16` scan nulls the first slot of `opp` holding `o`, as `Remove` says |
| EngineGame.Game.CaptureStep | ChessEngine/ChessGame.cs:239-249 | a piece on the target is removed by the scan; `x` is due exactly then |
| EngineGame.Game.PassantStep | ChessEngine/ChessGame.cs:252-264 | the en-passant branch leaves `PassantCapture` |
| EngineGame.Game.CastleStep | ChessEngine/ChessGame.cs:278-293 | the castling branch leaves `CastleRook` |
| EngineGame.Game.RelocateStep | ChessEngine/ChessGame.cs:295-298 | relocation leaves `Relocate` |
| EngineGame.Game.PromoteStep | ChessEngine/ChessGame.cs:303-318 | promotion leaves `Promote` |
| EngineGame.Game.Announce | ChessEngine/ChessGame.cs:300-325 | the record gains `+` exactly when `opp` is in check, and joins the move list; nothing else changes |

## Left out

- Console rendering (`displayBoard`, `printMoves`, the colour set-up in `Main`) is not modelled: it only prints.
- The console loop of both `update` methods is not modelled. That covers reading a line, the selection loop that tries `movePiece` on candidate pieces, `moveList.Add(input)` in `ChessGame.cs`, and `turn++` followed by `checkMate()`. Only the decomposition of the typed text is modelled (`TrialGame.Decompose`, `EngineGame.Decompose`).
- The promotion prompt of `ChessEngine/ChessGame.cs` (lines 307-317) is the parameter `promo`, required to be one of `Q`, `R`, `B`, `N`.
- Out-of-range accesses and null dereferences that would throw are preconditions, not modelled exceptions. These are the knight bound `x - 1 < 8`, the unchecked pawn forward index, the `i <= 16` scans that find nothing, the missing king in `checkCheck` of `ChessGame.cs` and `ChessEngine/ChessGame.cs` (BoardController.CheckCheck falls back to an empty tile name instead), `move[4]` on a short string, and `moveList[^1]` on an empty list.
- `int.Parse` is modelled on strings of decimal digits only; a sign, white space or an overflowing number is not modelled.
- `ChessEngine/UCIController.cs` and `ChessEngine/EngineController.cs` are not part of this model. They hold threads, console queues, a stopwatch and random numbers, with no behaviour of the board to state.
- EngineGame.MovedValid: assumes `RookHome`, that a castling rook stands on its corner. The source keeps that only through the unmoved-rook invariant of play, which the model does not track across moves. `EngineGame.MovedLands` and `EngineGame.MovedCastles` assume it too.
- EngineGame.PieceRecordDecomposes: stated for records with at most one hint, since the typed patterns allow only one. Records with two or more rivals do not decompose, and no lemma states that.
- EngineGame.Game.MovePiece: requires that the steps can run (`Playable`): the scans find their pieces and the mover's rivals can list their moves. In the source a failing scan throws.
- Controller.BoardController.PieceMoves: in legal mode a pawn requires a readable last record (`Ready`: the list is not empty and its last entry is not empty). Only the pawn's diagonal test reads `moveList[^1][0]` (ChessEngine/BoardController.cs:721-723, 730-732), and the source reaches that read only when MoveCheck passes and the diagonal tile holds no other team's piece. So a pawn is refused even where the source's `&&` would stop before the read, for example after a FEN whose en-passant target is on rank 1 with black to move, which records "". Kings, knights and sliders need no record. `Controller.BoardController.GetMoves`, `Controller.BoardController.CheckMate` and `Controller.BoardController.Update` inherit this through `SideReady`.
- Controller.Upper: FEN text is taken as ASCII. C#'s `char.IsUpper` and `char.ToUpper` are Unicode- and culture-aware: 'É' is team 0 and 'é' becomes 'É' there, and culture-dependent mappings such as Turkish 'i' exist; the model makes 'É' team 1 and keeps 'é'. `Controller.PlaceChar`, `Controller.PlacesPiece`, `Controller.Rights`, `Controller.BoardController.ReadChar`, `Controller.BoardController.GrantRights` and `Controller.BoardController.LoadFEN` inherit this.
- Controller.PlayReady: assumes `TakesOnly`, that the target and an en-passant victim belong to `opp` and that a castling rook lands on an empty tile. Without it the source can leave a listed piece off its tile: an en-passant step whose victim is of the mover's own team, or the king-side branch listing c1/c8 so that the rook lands on an occupied d-file tile. Readiness is not promised for those moves.
- Controller.BoardController.MovePiece: requires `CanPlay`, that a piece stands on the first square and an accepted move can be applied. In the source a missing piece throws.
