// The rules the move generator (src/chessboard/movegen/generator.rs)
// enforces, stated about the targets it computes: the check mask, pins,
// pawn pushes, the en-passant discovered-check test, king safety and the
// conditions for castling.
module GeneratorRules {
  import opened Wrappers
  import opened Squares
  import opened BitBoards
  import opened Colors
  import opened Pieces
  import opened Castling
  import opened Positions
  import opened Attacks
  import opened MoveLists
  import opened Generator
  import SL = TableGenSliders
  import TableGenConnections
  import TableGenLeapers
  import CT = ChessboardTables

  // ---------------------------------------------------------------------
  // Check.

  /// In check every target of a pawn, knight, bishop, rook or queen blocks
  /// the line from the checker to the king or takes a checker; the one
  /// exception is a pawn's en-passant capture, added after the mask.
  lemma CheckMask(tables: CT.Build, p: Position, mover: Mover, sq: Square, capturesOnly: bool, t: Square)
    requires Ready(tables, p) && p.checkers != EMPTY
    requires t in Targets(tables, p, mover, sq, capturesOnly, true)
    ensures t in p.checkers
      || TableGenConnections.Between(KingSquare(p, p.turn), ScanForward(p.checkers).value, t)
      || (mover == Pawns && p.enPassant == Some(t))
  {
    assert t in Defending(p) || (mover == Pawns && t in EnPassantBoard(p));
  }

  /// In single check every entry but the king's has only targets that
  /// answer the check, or the en-passant square.
  lemma SingleCheckEntries(tables: CT.Build, p: Position, capturesOnly: bool, e: PieceMoves)
    requires Ready(tables, p) && |p.checkers| == 1
    requires e in GeneratedEntries(tables, p, capturesOnly)
    ensures e.location == KingSquare(p, p.turn)
      || forall t :: t in e.targets ==> t in Defending(p) || p.enPassant == Some(t)
  {
    assert p.checkers != EMPTY;
    var entries := AllEntries(tables, p, capturesOnly, true);
    assert e in entries;
    if e !in KingEntry(tables, p, capturesOnly, true) {
      var mover :| mover in {Pawns, Knights, Bishops, Rooks} && e in Entries(tables, p, mover, Movers(p, mover), capturesOnly, true) by {
        if e in Entries(tables, p, Pawns, Movers(p, Pawns), capturesOnly, true) {
        } else if e in Entries(tables, p, Knights, Movers(p, Knights), capturesOnly, true) {
        } else if e in Entries(tables, p, Bishops, Movers(p, Bishops), capturesOnly, true) {
        } else {
          assert e in Entries(tables, p, Rooks, Movers(p, Rooks), capturesOnly, true);
        }
      }
      EntriesMeaning(tables, p, mover, Movers(p, mover), capturesOnly, true, e);
      forall t | t in e.targets
        ensures t in Defending(p) || p.enPassant == Some(t)
      {
        CheckMask(tables, p, mover, e.location, capturesOnly, t);
      }
    }
  }

  /// In double check only the king moves, and only onto steps the enemy
  /// does not attack: no castling.
  lemma DoubleCheckKingOnly(tables: CT.Build, p: Position, capturesOnly: bool)
    requires Ready(tables, p) && |p.checkers| >= 2
    ensures GeneratedEntries(tables, p, capturesOnly)
      == Pushed(PieceMoves(KingSquare(p, p.turn), SafeSteps(tables, p, KingSteps(p, capturesOnly, true))))
  {
    assert p.checkers != EMPTY;
    var steps := SafeSteps(tables, p, KingSteps(p, capturesOnly, true));
    assert KingTargets(tables, p, capturesOnly, true) == steps;
  }

  /// Out of check all five loops run without the check mask.
  lemma NoCheckAllPieces(tables: CT.Build, p: Position, capturesOnly: bool)
    requires Ready(tables, p) && p.checkers == EMPTY
    ensures GeneratedEntries(tables, p, capturesOnly) == AllEntries(tables, p, capturesOnly, false)
  {
  }

  // ---------------------------------------------------------------------
  // Pins.

  /// Pinned knights push no entry; every entry of the knight loop is a
  /// free knight of the side to move with knight jumps only.
  lemma PinnedKnightsStay(tables: CT.Build, p: Position, capturesOnly: bool, inCheck: bool, e: PieceMoves)
    requires Ready(tables, p) && (inCheck ==> p.checkers != EMPTY)
    requires e in Entries(tables, p, Knights, Movers(p, Knights), capturesOnly, inCheck)
    ensures e.location !in p.pinned && e.location in Query(p, Knight, p.turn)
    ensures forall t :: t in e.targets ==> TableGenLeapers.KnightJump(e.location, t)
  {
    EntriesMeaning(tables, p, Knights, Movers(p, Knights), capturesOnly, inCheck, e);
  }

  /// A bishop, rook or queen moves exactly to the squares it sees along
  /// the lines of `kind` that the mode allows, and, when pinned, only along
  /// the line through its king.
  lemma SliderTargetsRule(tables: CT.Build, p: Position, kind: SL.Slider, sq: Square, capturesOnly: bool, inCheck: bool, t: Square)
    requires Ready(tables, p) && (inCheck ==> p.checkers != EMPTY)
    ensures t in SliderTargets(tables, p, kind, sq, capturesOnly, inCheck) <==>
      t in SL.AttacksSlow(kind, sq, Occupancy(p))
      && (if inCheck then t in Defending(p)
          else if capturesOnly then t in ColorOccupancy(p, Opposite(p.turn))
          else t !in ColorOccupancy(p, p.turn))
      && (sq in p.pinned ==> TableGenConnections.OnAxis(KingSquare(p, p.turn), sq, t))
  {
    OverlapsSquare(p.pinned, sq);
  }

  // ---------------------------------------------------------------------
  // Pawns.

  /// One rank toward the enemy, as an index step.
  function Step(us: Color): int
  {
    if us == White then 8 else -8
  }

  /// A pawn pushes one square when that square is empty, and two from its
  /// start rank when both squares are empty.
  lemma PawnPushRule(p: Position, sq: Square, t: Square)
    requires WellFormed(p)
    ensures t in PawnPushes(p, sq, p.turn) <==>
      t !in Occupancy(p)
      && (t == sq + Step(p.turn)
          || (Rank(sq) == StartRank(p.turn) && t == sq + 2 * Step(p.turn) && sq + Step(p.turn) !in Occupancy(p)))
  {
    var us := p.turn;
    var forward := Ahead(FromSquare(sq), us);
    var occ := Occupancy(p);
    var a, a2 := sq + Step(us), sq + 2 * Step(us);
    assert forall s: Square :: s in forward <==> s == a;
    if t in forward && t in occ {
      assert t in forward * occ;
    }
    if Overlaps(forward, occ) {
      var x :| x in forward * occ;
      assert x == a;
    } else if Rank(sq) == StartRank(us) {
      var double := Ahead(forward, us);
      assert forall s: Square :: s in double <==> s == a2;
      assert a in forward;
      if t in double && t in occ {
        assert t in double * occ;
      }
      if Overlaps(double, occ) {
        var x :| x in double * occ;
        assert x == a2;
      }
    }
  }

  /// A pawn pinned along its king's file may push but not capture, en
  /// passant included.
  lemma PinnedForwardPawn(tables: CT.Build, p: Position, sq: Square, capturesOnly: bool, inCheck: bool)
    requires Ready(tables, p) && (inCheck ==> p.checkers != EMPTY)
    requires sq in p.pinned && File(KingSquare(p, p.turn)) == File(sq)
    ensures PawnTargets(tables, p, sq, capturesOnly, inCheck) <= PawnPushes(p, sq, p.turn)
  {
    OverlapsSquare(p.pinned, sq);
  }

  /// A pawn pinned along any other line may not push, and captures,
  /// en passant included, only along the pin axis.
  lemma PinnedAcrossPawn(tables: CT.Build, p: Position, sq: Square, capturesOnly: bool, inCheck: bool, t: Square)
    requires Ready(tables, p) && (inCheck ==> p.checkers != EMPTY)
    requires sq in p.pinned && File(KingSquare(p, p.turn)) != File(sq)
    requires t in PawnTargets(tables, p, sq, capturesOnly, inCheck)
    ensures t in TableGenLeapers.PawnTargets(p.turn, sq)
    ensures TableGenConnections.OnAxis(KingSquare(p, p.turn), sq, t)
  {
    OverlapsSquare(p.pinned, sq);
    var attacks := CT.GetPawnAttacks(sq, p.turn) * PinAxis(p, sq);
    var epBb := EnPassantBoard(p);
    if t in epBb && Overlaps(attacks, epBb) {
      var a :| a in attacks * epBb;
      assert a == t;
    }
    assert t in attacks;
  }

  /// Some of `enemies` lies on the lines of `kind` seen from `target`
  /// exactly when a slider of `kind` on one of them would see `target`.
  lemma SeenFromTarget(kind: SL.Slider, target: Square, enemies: BitBoard, occ: BitBoard)
    ensures Overlaps(enemies, SL.AttacksSlow(kind, target, occ))
      <==> exists t :: t in enemies && target in SL.AttacksSlow(kind, t, occ)
  {
    if Overlaps(enemies, SL.AttacksSlow(kind, target, occ)) {
      var t :| t in enemies * SL.AttacksSlow(kind, target, occ);
      SliderSymmetric(kind, target, t, occ);
    }
    if exists t :: t in enemies && target in SL.AttacksSlow(kind, t, occ) {
      var t :| t in enemies && target in SL.AttacksSlow(kind, t, occ);
      SliderSymmetric(kind, target, t, occ);
      assert t in enemies * SL.AttacksSlow(kind, target, occ);
    }
  }

  /// Some bishop or queen of `them` sees `target` along a diagonal.
  ghost predicate DiagonalAttack(p: Position, target: Square, them: Color, occ: BitBoard)
    requires WellFormed(p)
  {
    exists t :: t in Query(p, Bishop, them) + Query(p, Queen, them) && target in SL.AttacksSlow(SL.Bishop, t, occ)
  }

  /// Some rook or queen of `them` sees `target` along a rank or file.
  ghost predicate StraightAttack(p: Position, target: Square, them: Color, occ: BitBoard)
    requires WellFormed(p)
  {
    exists t :: t in Query(p, Rook, them) + Query(p, Queen, them) && target in SL.AttacksSlow(SL.Rook, t, occ)
  }

  /// A slider attack is a diagonal or a straight one.
  lemma SliderAttackIsLine(p: Position, target: Square, them: Color, occ: BitBoard)
    requires WellFormed(p) && SliderAttacks(p, target, them, occ)
    ensures DiagonalAttack(p, target, them, occ) || StraightAttack(p, target, them, occ)
  {
    var t, k :| Slides(k) && t in Query(p, k, them) && target in AttackSet(k, them, t, occ);
    if k == Bishop || (k == Queen && target in SL.AttacksSlow(SL.Bishop, t, occ)) {
      assert t in Query(p, Bishop, them) + Query(p, Queen, them);
    } else {
      assert t in Query(p, Rook, them) + Query(p, Queen, them);
    }
  }

  /// A diagonal attack is a slider attack.
  lemma DiagonalIsSlider(p: Position, target: Square, them: Color, occ: BitBoard)
    requires WellFormed(p) && DiagonalAttack(p, target, them, occ)
    ensures SliderAttacks(p, target, them, occ)
  {
    var t :| t in Query(p, Bishop, them) + Query(p, Queen, them) && target in SL.AttacksSlow(SL.Bishop, t, occ);
    if t in Query(p, Bishop, them) {
      assert Slides(Bishop) && t in Query(p, Bishop, them) && target in AttackSet(Bishop, them, t, occ);
    } else {
      assert Slides(Queen) && t in Query(p, Queen, them) && target in AttackSet(Queen, them, t, occ);
    }
  }

  /// A straight attack is a slider attack.
  lemma StraightIsSlider(p: Position, target: Square, them: Color, occ: BitBoard)
    requires WellFormed(p) && StraightAttack(p, target, them, occ)
    ensures SliderAttacks(p, target, them, occ)
  {
    var t :| t in Query(p, Rook, them) + Query(p, Queen, them) && target in SL.AttacksSlow(SL.Rook, t, occ);
    if t in Query(p, Rook, them) {
      assert Slides(Rook) && t in Query(p, Rook, them) && target in AttackSet(Rook, them, t, occ);
    } else {
      assert Slides(Queen) && t in Query(p, Queen, them) && target in AttackSet(Queen, them, t, occ);
    }
  }

  /// The en-passant test: the capture is kept exactly when no enemy
  /// bishop, rook or queen attacks the king once the capturing pawn has
  /// moved onto the en-passant square and the captured pawn is gone.
  lemma EnPassantSafety(tables: CT.Build, p: Position, sq: Square, epBb: BitBoard)
    requires Ready(tables, p)
    ensures EnPassantKeepsKingSafe(tables, p, sq, epBb)
      <==> !SliderAttacks(p, KingSquare(p, p.turn), Opposite(p.turn), EnPassantOccupancy(p, sq, epBb))
  {
    var them := Opposite(p.turn);
    var king := KingSquare(p, p.turn);
    var occ := EnPassantOccupancy(p, sq, epBb);
    SeenFromTarget(SL.Bishop, king, Query(p, Bishop, them) + Query(p, Queen, them), occ);
    SeenFromTarget(SL.Rook, king, Query(p, Rook, them) + Query(p, Queen, them), occ);
    if SliderAttacks(p, king, them, occ) {
      SliderAttackIsLine(p, king, them, occ);
    }
    if DiagonalAttack(p, king, them, occ) {
      DiagonalIsSlider(p, king, them, occ);
    }
    if StraightAttack(p, king, them, occ) {
      StraightIsSlider(p, king, them, occ);
    }
  }

  // ---------------------------------------------------------------------
  // The king.

  /// A king step is a neighbouring square without a friendly piece (an
  /// enemy piece in captures-only mode out of check) that the enemy does
  /// not attack once the king has left its square.
  lemma KingStepRule(tables: CT.Build, p: Position, capturesOnly: bool, inCheck: bool, t: Square)
    requires Ready(tables, p)
    ensures t in SafeSteps(tables, p, KingSteps(p, capturesOnly, inCheck)) <==>
      TableGenLeapers.KingStep(KingSquare(p, p.turn), t)
      && (if capturesOnly && !inCheck then t in ColorOccupancy(p, Opposite(p.turn)) else t !in ColorOccupancy(p, p.turn))
      && !AttackedWith(p, t, Opposite(p.turn), Occupancy(p) - {KingSquare(p, p.turn)})
  {
    var king := KingSquare(p, p.turn);
    assert NoKingOccupancy(p) == Occupancy(p) - {king};
  }

  /// In captures-only mode the king never castles.
  lemma CapturesOnlyNoCastle(tables: CT.Build, p: Position, inCheck: bool)
    requires Ready(tables, p)
    ensures KingTargets(tables, p, true, inCheck) == SafeSteps(tables, p, KingSteps(p, true, inCheck))
  {
  }

  /// Two squares are both empty exactly when the pair does not overlap
  /// the occupancy.
  lemma PairEmpty(a: Square, b: Square, occ: BitBoard)
    ensures !Overlaps({a, b}, occ) <==> a !in occ && b !in occ
  {
    if a in occ {
      assert a in {a, b} * occ;
    } else if b in occ {
      assert b in {a, b} * occ;
    } else {
      assert {a, b} * occ == {};
    }
  }

  /// Three squares are all empty exactly when the triple does not overlap
  /// the occupancy.
  lemma TripleEmpty(a: Square, b: Square, c: Square, occ: BitBoard)
    ensures !Overlaps({a, b, c}, occ) <==> a !in occ && b !in occ && c !in occ
  {
    if a in occ {
      assert a in {a, b, c} * occ;
    } else if b in occ {
      assert b in {a, b, c} * occ;
    } else if c in occ {
      assert c in {a, b, c} * occ;
    } else {
      assert {a, b, c} * occ == {};
    }
  }

  /// The enemy attacks one of two squares exactly when it attacks the one
  /// or the other.
  lemma PairAttacked(tables: CT.Build, p: Position, a: Square, b: Square)
    requires CT.Ready(tables) && WellFormed(p)
    ensures AnyAttacked(tables, p, {a, b}) <==> AttackedBy(p, a, Opposite(p.turn)) || AttackedBy(p, b, Opposite(p.turn))
  {
    AnyAttackedMeaning(tables, p, {a, b});
  }

  /// Castling kingside lands the king on G1 (G8) exactly when the side is
  /// not in check, holds the right, and F and G are empty and not attacked.
  lemma KingsideCastleRule(tables: CT.Build, p: Position, inCheck: bool)
    requires CT.Ready(tables) && WellFormed(p)
    ensures var us := p.turn;
      var f, g := if us == White then F1 else F8, if us == White then G1 else G8;
      g in CastleTargets(tables, p, inCheck) <==>
        !inCheck && IsSet(p.castlingRights, Kingside, us)
        && f !in Occupancy(p) && g !in Occupancy(p)
        && !AttackedBy(p, f, Opposite(us)) && !AttackedBy(p, g, Opposite(us))
  {
    var us := p.turn;
    var f, g := if us == White then F1 else F8, if us == White then G1 else G8;
    assert KingsidePath(us) == {f, g};
    PairEmpty(f, g, Occupancy(p));
    PairAttacked(tables, p, f, g);
  }

  /// Castling queenside lands the king on C1 (C8) exactly when the side is
  /// not in check, holds the right, B, C and D are empty, and C and D are
  /// not attacked; B may be.
  lemma QueensideCastleRule(tables: CT.Build, p: Position, inCheck: bool)
    requires CT.Ready(tables) && WellFormed(p)
    ensures var us := p.turn;
      var b, c, d := if us == White then 1 else 57, if us == White then C1 else C8, if us == White then D1 else D8;
      c in CastleTargets(tables, p, inCheck) <==>
        !inCheck && IsSet(p.castlingRights, Queenside, us)
        && b !in Occupancy(p) && c !in Occupancy(p) && d !in Occupancy(p)
        && !AttackedBy(p, c, Opposite(us)) && !AttackedBy(p, d, Opposite(us))
  {
    var us := p.turn;
    var b, c, d := if us == White then 1 else 57, if us == White then C1 else C8, if us == White then D1 else D8;
    assert QueensidePath(us) == {c, d} && QueensideGap(us) == {b, c, d};
    assert CastleTarget(us, Queenside) == c && CastleTarget(us, Kingside) != c;
    TripleEmpty(b, c, d, Occupancy(p));
    PairAttacked(tables, p, c, d);
  }
}
