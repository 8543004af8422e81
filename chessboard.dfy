// The `ChessBoard` struct of src/chessboard/chessboard.rs as a class: the
// six piece boards and two color boards are fixed-size arrays updated in
// place, the other fields are reassigned. Each method is proved to leave
// the state the matching function of `Positions` describes, so what is
// proved about those functions (MoveEffects, MakeMove, ChecksAndPins) holds
// of the class.
module ChessBoards {
  import opened Wrappers
  import opened Squares
  import opened BitBoards
  import opened Colors
  import opened Pieces
  import opened Castling
  import opened Positions
  import Z = Zobrist
  import SL = TableGenSliders
  import TableGenLeapers
  import TableGenConnections
  import CT = ChessboardTables

  /// Adding a pinner to those already scanned adds the squares between it
  /// and the king.
  lemma ShadowedStep(done: BitBoard, x: Square, king: Square, friendly: BitBoard)
    ensures friendly * Shadowed(done + {x}, king)
         == friendly * Shadowed(done, king) + friendly * CT.GetDirectConnection(x, king)
  {
    var conn := CT.GetDirectConnection(x, king);
    forall f ensures f in Shadowed(done + {x}, king) <==> f in Shadowed(done, king) || f in conn {
      if f in Shadowed(done + {x}, king) {
        assert BehindPinner(done + {x}, king, f);
        var y :| y in done + {x} && TableGenConnections.Between(y, king, f);
        if y != x {
          assert BehindPinner(done, king, f);
        }
      }
      if f in Shadowed(done, king) {
        assert BehindPinner(done, king, f);
        var y :| y in done && TableGenConnections.Between(y, king, f);
        assert BehindPinner(done + {x}, king, f);
      }
      if f in conn {
        assert BehindPinner(done + {x}, king, f);
      }
    }
  }

  /// The pawn and knight tables hold the generated targets.
  lemma LeaperLookups(s: Square, c: Color)
    ensures CT.GetPawnAttacks(s, c) == TableGenLeapers.PawnTargets(c, s)
    ensures CT.GetKnightAttacks(s) == TableGenLeapers.KnightTargets(s)
  {
  }

  /// `Checkers` written with the lookups `calculate_checkers` makes.
  lemma CheckersByLookup(p: Position, tables: CT.Build)
    requires WellFormed(p) && Query(p, King, p.turn) != EMPTY && CT.Ready(tables)
    ensures
      var us := p.turn;
      var them := Opposite(us);
      var king := KingSquare(p, us);
      var occ := Occupancy(p);
      Checkers(p) ==
        Query(p, Pawn, them) * CT.GetPawnAttacks(king, us)
        + Query(p, Knight, them) * CT.GetKnightAttacks(king)
        + (Query(p, Bishop, them) + Query(p, Queen, them)) * CT.GetBishopAttacks(tables, king, occ)
        + (Query(p, Rook, them) + Query(p, Queen, them)) * CT.GetRookAttacks(tables, king, occ)
  {
    LeaperLookups(KingSquare(p, p.turn), p.turn);
  }

  /// The pinner scan of `calculate_pinned`: the enemy rooks and queens
  /// the ghost rook lookup reveals behind a friendly piece, and the bishops
  /// and queens the ghost bishop lookup reveals.
  function PinnerScan(tables: CT.Build, p: Position): (r: BitBoard)
    requires WellFormed(p) && Query(p, King, p.turn) != EMPTY && CT.Ready(tables)
    ensures r == Pinners(p)
  {
    var us := p.turn;
    var them := Opposite(us);
    var friendly := ColorOccupancy(p, us);
    var king := KingSquare(p, us);
    var occ := Occupancy(p);
    assert friendly <= occ;
    var enemyRooks := Query(p, Rook, them) + Query(p, Queen, them);
    var enemyBishops := Query(p, Bishop, them) + Query(p, Queen, them);
    var rookPinners := enemyRooks * CT.GetGhostRook(tables, king, occ, friendly);
    var bishopPinners := enemyBishops * CT.GetGhostBishop(tables, king, occ, friendly);
    rookPinners + bishopPinners
  }

  /// The loop of `calculate_pinned`: for each pinner in turn, the friendly
  /// pieces between it and the king join the pinned set.
  method PinnedBehind(pinners: BitBoard, king: Square, friendly: BitBoard) returns (pins: BitBoard)
    ensures pins == friendly * Shadowed(pinners, king)
  {
    pins := EMPTY;
    var rest := pinners;
    while rest != EMPTY
      invariant rest <= pinners
      invariant pins == friendly * Shadowed(pinners - rest, king)
      decreases |rest|
    {
      var square, rest' := Next(rest);
      var pinnerSq := square.value;
      ShadowedStep(pinners - rest, pinnerSq, king, friendly);
      assert pinners - rest' == (pinners - rest) + {pinnerSq};
      pins := pins + friendly * CT.GetDirectConnection(pinnerSq, king);
      rest := rest';
    }
    assert pinners - rest == pinners;
  }

  /// `calculate_pinned` on a board value: the pinner scan, then the loop
  /// over the pinners.
  method ScanPinned(tables: CT.Build, p: Position) returns (pins: BitBoard)
    requires WellFormed(p) && Query(p, King, p.turn) != EMPTY && CT.Ready(tables)
    ensures pins == PinnedPieces(p)
  {
    var friendly := ColorOccupancy(p, p.turn);
    var king := KingSquare(p, p.turn);
    var pinners := PinnerScan(tables, p);
    pins := PinnedBehind(pinners, king, friendly);
  }

  /// `calculate_checkers` on a board value: enemy pawns, knights,
  /// bishops-or-queens and rooks-or-queens on the patterns cast from the
  /// king.
  method ScanCheckers(tables: CT.Build, p: Position) returns (found: BitBoard)
    requires WellFormed(p) && Query(p, King, p.turn) != EMPTY && CT.Ready(tables)
    ensures found == Checkers(p)
  {
    var us := p.turn;
    var them := Opposite(us);
    var king := KingSquare(p, us);
    CheckersByLookup(p, tables);
    found := EMPTY;
    var pawnCheckLocations := CT.GetPawnAttacks(king, us);
    found := found + Query(p, Pawn, them) * pawnCheckLocations;
    var knightCheckLocations := CT.GetKnightAttacks(king);
    found := found + Query(p, Knight, them) * knightCheckLocations;
    var bishopCheckLocations := CT.GetBishopAttacks(tables, king, Occupancy(p));
    found := found + (Query(p, Bishop, them) + Query(p, Queen, them)) * bishopCheckLocations;
    var rookCheckLocations := CT.GetRookAttacks(tables, king, Occupancy(p));
    found := found + (Query(p, Rook, them) + Query(p, Queen, them)) * rookCheckLocations;
  }

  class ChessBoard {
    const pieceBbs: array<BitBoard>
    const colorBbs: array<BitBoard>
    /// The lookup tables the Rust code keeps in statics.
    const tables: CT.Build
    var castlingRights: CastlingRights
    var enPassant: Option<Square>
    var turn: Color
    var pinned: BitBoard
    var checkers: BitBoard
    var hash: Z.ZobristHash
    var halfMoveClock: nat

    /// The array lengths of the struct, two distinct arrays and the clock
    /// inside a u8.
    ghost predicate Valid()
      reads this
    {
      pieceBbs.Length == 6 && colorBbs.Length == 2 && pieceBbs != colorBbs && halfMoveClock < 256
    }

    /// The fields as a value.
    function State(): (p: Position)
      reads this, pieceBbs, colorBbs
      ensures Valid() ==> WellFormed(p)
    {
      Position(pieceBbs[..], colorBbs[..], castlingRights, enPassant, turn, pinned, checkers, hash, halfMoveClock)
    }

    /// The struct literal: a board holding the fields of `p`.
    constructor (p: Position, tables: CT.Build)
      requires WellFormed(p) && p.halfMoveClock < 256
      ensures Valid()
      ensures State() == p
      ensures this.tables == tables
      ensures fresh(pieceBbs) && fresh(colorBbs)
    {
      this.tables := tables;
      castlingRights := p.castlingRights;
      enPassant := p.enPassant;
      turn := p.turn;
      pinned := p.pinned;
      checkers := p.checkers;
      hash := p.hash;
      halfMoveClock := p.halfMoveClock;
      pieceBbs := new BitBoard[6](i requires 0 <= i < 6 => p.pieceBbs[i]);
      colorBbs := new BitBoard[2](i requires 0 <= i < 2 => p.colorBbs[i]);
      new;
      assert pieceBbs[..] == p.pieceBbs;
      assert colorBbs[..] == p.colorBbs;
    }

    /// `clone`: a new board with its own arrays and the same state.
    method Clone() returns (c: ChessBoard)
      requires Valid()
      ensures fresh(c) && fresh(c.pieceBbs) && fresh(c.colorBbs)
      ensures c.Valid() && c.State() == State() && c.tables == tables
    {
      c := new ChessBoard(State(), tables);
    }

    /// `insert`.
    method Insert(square: Square, piece: ColoredPiece)
      requires Valid()
      modifies this, pieceBbs, colorBbs
      ensures Valid() && State() == Positions.Insert(old(State()), square, piece)
    {
      var ki := Pieces.Index(piece.kind);
      var ci := Colors.Index(piece.color);
      pieceBbs[ki] := pieceBbs[ki] + FromSquare(square);
      colorBbs[ci] := colorBbs[ci] + FromSquare(square);
      hash := Z.Piece(hash, square, piece.kind, piece.color);
    }

    /// `remove`: the square must hold a piece, which `piece_at` names.
    method Remove(square: Square)
      requires Valid() && PieceAt(State(), square).Some?
      modifies this, pieceBbs, colorBbs
      ensures Valid() && State() == Positions.Remove(old(State()), square)
    {
      var piece := PieceAt(State(), square).value;
      var ki := Pieces.Index(piece.kind);
      var ci := Colors.Index(piece.color);
      pieceBbs[ki] := Xor(pieceBbs[ki], FromSquare(square));
      colorBbs[ci] := Xor(colorBbs[ci], FromSquare(square));
      hash := Z.Piece(hash, square, piece.kind, piece.color);
    }

    /// `move_piece`.
    method MovePiece(start: Square, end: Square, piece: ColoredPiece)
      requires Valid()
      modifies this, pieceBbs, colorBbs
      ensures Valid() && State() == Positions.MovePiece(old(State()), start, end, piece)
    {
      var ki := Pieces.Index(piece.kind);
      var ci := Colors.Index(piece.color);
      var both := FromSquare(start) + FromSquare(end);
      pieceBbs[ki] := Xor(pieceBbs[ki], both);
      colorBbs[ci] := Xor(colorBbs[ci], both);
      hash := Z.Piece(hash, start, piece.kind, piece.color);
      hash := Z.Piece(hash, end, piece.kind, piece.color);
    }

    /// `toggle_turn`.
    method ToggleTurn()
      requires Valid()
      modifies this
      ensures Valid() && State() == Positions.ToggleTurn(old(State()))
    {
      turn := Opposite(turn);
      hash := Z.ToggleTurn(hash);
    }

    /// `set_castle_right`.
    method SetCastleRight(side: CastleSide, color: Color)
      requires Valid()
      modifies this
      ensures Valid() && State() == Positions.SetCastleRight(old(State()), side, color)
    {
      castlingRights := Castling.Set(castlingRights, side, color);
      hash := Z.CastleRight(hash, side, color);
    }

    /// `unset_castle_right`.
    method UnsetCastleRight(side: CastleSide, color: Color)
      requires Valid()
      modifies this
      ensures Valid() && State() == Positions.UnsetCastleRight(old(State()), side, color)
    {
      if IsSet(castlingRights, side, color) {
        castlingRights := Unset(castlingRights, side, color);
        hash := Z.CastleRight(hash, side, color);
      }
    }

    /// `unset_color_rights`.
    method UnsetColorRights(color: Color)
      requires Valid()
      modifies this
      ensures Valid() && State() == Positions.UnsetColorRights(old(State()), color)
    {
      UnsetCastleRight(Kingside, color);
      UnsetCastleRight(Queenside, color);
    }

    /// `set_ep`.
    method SetEp(square: Square)
      requires Valid()
      modifies this
      ensures Valid() && State() == Positions.SetEp(old(State()), square)
    {
      enPassant := Some(square);
      hash := Z.Ep(hash, square);
    }

    /// `clear_ep`.
    method ClearEp()
      requires Valid()
      modifies this
      ensures Valid() && State() == Positions.ClearEp(old(State()))
    {
      if enPassant.Some? {
        hash := Z.Ep(hash, enPassant.value);
        enPassant := None;
      }
    }

    /// The clock assignment `from_fen` makes on a freshly converted board.
    method SetHalfMoveClock(halfmoves: nat)
      requires Valid() && halfmoves < 256
      modifies this
      ensures Valid() && State() == old(State()).(halfMoveClock := halfmoves)
    {
      halfMoveClock := halfmoves;
    }

    /// The rook-corner match of `make_move` for a rook of `us` leaving
    /// `start`.
    method RevokeMovingRook(us: Color, start: Square)
      requires Valid()
      modifies this
      ensures Valid() && State() == Positions.MovingRookRights(old(State()), us, start)
    {
      match (us, start)
      case (Black, 56) => UnsetCastleRight(Queenside, us);
      case (Black, 63) => UnsetCastleRight(Kingside, us);
      case (White, 0) => UnsetCastleRight(Queenside, us);
      case (White, 7) => UnsetCastleRight(Kingside, us);
      case _ =>
    }

    /// The rook-corner match of `make_move` for a capture by `us` on `end`.
    method RevokeCapturedRook(us: Color, end: Square)
      requires Valid()
      modifies this
      ensures Valid() && State() == Positions.CapturedRookRights(old(State()), us, end)
    {
      var them := Opposite(us);
      match (us, end)
      case (Black, 0) => UnsetCastleRight(Queenside, them);
      case (Black, 7) => UnsetCastleRight(Kingside, them);
      case (White, 56) => UnsetCastleRight(Queenside, them);
      case (White, 63) => UnsetCastleRight(Kingside, them);
      case _ =>
    }

    /// `calculate_pinned`: the pinners are the enemy sliders the ghost
    /// lookups reveal behind a friendly piece; every friendly piece between
    /// a pinner and the king is pinned.
    method CalculatePinned()
      requires Valid() && CT.Ready(tables) && Query(State(), King, turn) != EMPTY
      modifies this
      ensures Valid()
      ensures State() == old(State()).(pinned := pinned)
      ensures pinned == PinnedPieces(old(State()))
    {
      pinned := ScanPinned(tables, State());
    }

    /// `calculate_checkers`.
    method CalculateCheckers()
      requires Valid() && CT.Ready(tables) && Query(State(), King, turn) != EMPTY
      modifies this
      ensures Valid()
      ensures State() == old(State()).(checkers := checkers)
      ensures checkers == Checkers(old(State()))
    {
      checkers := ScanCheckers(tables, State());
    }

    /// `calculate_extra_data`: pins, then checkers.
    method CalculateExtraData()
      requires Valid() && CT.Ready(tables) && Query(State(), King, turn) != EMPTY
      modifies this
      ensures Valid() && State() == WithExtraData(old(State()))
    {
      CalculatePinned();
      CalculateCheckers();
    }

    /// The rights a king or rook of `us` gives up when it leaves `start`.
    method RevokeMoverRights(us: Color, start: Square, moving: PieceType)
      requires Valid()
      modifies this
      ensures Valid() && State() == MoverRights(old(State()), us, start, moving)
    {
      if moving == King {
        UnsetColorRights(us);
      } else if moving == Rook {
        RevokeMovingRook(us, start);
      }
    }

    /// The Capture arm of `make_move`.
    method MakeCapture(start: Square, end: Square, moving: PieceType, us: Color)
      requires Valid() && end in Occupancy(State())
      modifies this, pieceBbs, colorBbs
      ensures Valid() && State() == CaptureRelocated(old(State()), start, end, moving, us)
    {
      RevokeMoverRights(us, start, moving);
      RevokeCapturedRook(us, end);
      Remove(end);
      MovePiece(start, end, ColoredPiece(moving, us));
    }

    /// The Castle arm of `make_move`.
    method MakeCastle(start: Square, end: Square, side: CastleSide, us: Color)
      requires Valid()
      modifies this, pieceBbs, colorBbs
      ensures Valid() && State() == CastleRelocated(old(State()), start, end, side, us)
    {
      var rookStart, rookEnd := RookHome(us, side), RookCastleEnd(us, side);
      MovePiece(rookStart, rookEnd, ColoredPiece(Rook, us));
      MovePiece(start, end, ColoredPiece(King, us));
      UnsetColorRights(us);
    }

    /// The EnPassant arm of `make_move`: the captured pawn stands below
    /// the end square for White, above it for Black.
    method MakeEnPassant(start: Square, end: Square, us: Color)
      requires Valid() && CapturedSquare(us, end).Some? && CapturedSquare(us, end).value in Occupancy(State())
      modifies this, pieceBbs, colorBbs
      ensures Valid() && State() == EnPassantRelocated(old(State()), start, end, us)
    {
      if us == White {
        Remove(Squares.Down(end).value);
      } else {
        Remove(Squares.Up(end).value);
      }
      MovePiece(start, end, ColoredPiece(Pawn, us));
    }

    /// The PromoteCapture arm of `make_move`.
    method MakePromoteCapture(start: Square, end: Square, target: PieceType, us: Color)
      requires Valid() && end in Occupancy(State()) && start != end && start in Occupancy(State())
      modifies this, pieceBbs, colorBbs
      ensures Valid() && State() == PromoteCaptureRelocated(old(State()), start, end, target, us)
    {
      RevokeCapturedRook(us, end);
      Remove(end);
      Remove(start);
      Insert(end, ColoredPiece(target, us));
    }

    /// The match of `make_move` on the kind of move, for a move by `us`
    /// after the en-passant square was cleared and the turn passed: it
    /// moves the pieces, revokes rights and reports whether the halfmove
    /// clock restarts.
    method MovePieces(mv: Move, us: Color) returns (resetHalfmoves: bool)
      requires Valid() && ApplicableFor(State(), mv, us)
      modifies this, pieceBbs, colorBbs
      ensures Valid()
      ensures State() == Relocate(old(State()), mv, us)
      ensures resetHalfmoves == ResetsClock(mv)
    {
      resetHalfmoves := false;
      match mv {
        case Quiet(start, end, moving) =>
          RevokeMoverRights(us, start, moving);
          if moving == Pawn {
            resetHalfmoves := true;
          }
          MovePiece(start, end, ColoredPiece(moving, us));
        case Capture(start, end, moving) =>
          MakeCapture(start, end, moving, us);
          resetHalfmoves := true;
        case Castle(start, end, side) =>
          MakeCastle(start, end, side, us);
        case DoublePawnPush(start, end) =>
          if us == White {
            SetEp(Squares.Up(start).value);
          } else {
            SetEp(Squares.Down(start).value);
          }
          MovePiece(start, end, ColoredPiece(Pawn, us));
          resetHalfmoves := true;
        case EnPassant(start, end) =>
          MakeEnPassant(start, end, us);
          resetHalfmoves := true;
        case Promote(start, end, target) =>
          Remove(start);
          Insert(end, ColoredPiece(target, us));
          resetHalfmoves := true;
        case PromoteCapture(start, end, target) =>
          MakePromoteCapture(start, end, target, us);
          resetHalfmoves := true;
      }
    }

    /// `make_move` up to the recomputation of pins and checkers: clear
    /// the en-passant square, pass the turn, move the pieces and revoke the
    /// rights each kind of move calls for, then reset or advance the u8
    /// halfmove clock.
    method Advance(mv: Move)
      requires Valid() && Applicable(State(), mv)
      modifies this, pieceBbs, colorBbs
      ensures Valid()
      ensures State() == Moved(old(State()), mv)
    {
      ghost var p := State();
      var us := turn;
      MovedSteps(p, mv);
      ClearEp();
      ToggleTurn();
      ghost var p1 := State();
      assert p1 == Positions.ToggleTurn(Positions.ClearEp(p));
      var resetHalfmoves := MovePieces(mv, us);
      ghost var p2 := State();
      if resetHalfmoves {
        halfMoveClock := 0;
      } else {
        halfMoveClock := (halfMoveClock + 1) % 256;
      }
      assert State() == p2.(halfMoveClock := halfMoveClock);
    }

    /// `make_move`: the moves of `Advance`, then pins and checkers are
    /// recomputed for the side now to move.
    method MakeMove(mv: Move)
      requires Valid() && CT.Ready(tables) && CanMake(State(), mv)
      modifies this, pieceBbs, colorBbs
      ensures Valid()
      ensures State() == Play(old(State()), mv)
    {
      ghost var p := State();
      Advance(mv);
      assert State() == Moved(p, mv);
      CalculateExtraData();
    }

    /// `get_child`: a copy of the board with the move made; the board
    /// itself is untouched, and the child equals this board after the
    /// same move.
    method GetChild(mv: Move) returns (child: ChessBoard)
      requires Valid() && CT.Ready(tables) && CanMake(State(), mv)
      ensures fresh(child) && fresh(child.pieceBbs) && fresh(child.colorBbs)
      ensures child.Valid() && child.State() == Play(State(), mv) && child.tables == tables
    {
      child := Clone();
      child.MakeMove(mv);
    }
  }
}
