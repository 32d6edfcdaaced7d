/** The exchange of the two Unix endpoints never gets stuck, and can always be finished. */
module UnixProgress {
  import opened Wire
  import opened Transport
  import X = UnixExport
  import S = UnixSafety

  /** The frame under way, if any, is one the importer takes: its event and major, not too long,
      and in turn. */
  predicate Welcome(l: S.Link) {
    |l.admitted| < |l.published| ==>
      && l.reader.event == l.contract.event && l.reader.major == l.contract.major
      && |S.Last(l.published).payload| <= l.maxPayload
      && (l.admitted != [] && l.reader.delivery.Ordered? ==>
            S.Last(l.published).sequence as int == S.Last(l.admitted).sequence + 1)
      && (l.admitted != [] && l.reader.delivery.Latest? ==>
            S.Last(l.published).sequence > S.Last(l.admitted).sequence)
  }

  /** Both ends run, with such a frame. */
  predicate Matched(l: S.Link) {
    S.LinkInv(l) && l.exporter.closed.None? && l.closed.None? && Welcome(l)
  }

  /** Every frame published is admitted, credited and completed, and the exporter takes the next. */
  predicate Quiet(l: S.Link) {
    && l.admitted == l.published && l.exporter.credits == S.Sequences(l.published)
    && l.exporter.completed == S.Sequences(l.published) && l.exporter.phase.Ready?
  }

  /** The moves that take the exchange on. */
  predicate Works(move: S.Move) { !move.Offer? && !move.Refuse? && !move.FailExport? && !move.FailImport? }

  function PhaseDebt(phase: X.Phase): nat {
    match phase
    case Ready => 0
    case Writing => 2
    case Waiting => 1
  }

  /** Every byte still to be written or read, each admission and credit still to come. */
  function Debt(l: S.Link): nat {
    2 * |l.toWrite| + |l.data| + 2 * |l.creditOut| + |l.credit| + PhaseDebt(l.exporter.phase)
    + (if |l.admitted| < |l.published| then 2 * CREDIT_BYTES + 2 else 0)
    + (if |l.exporter.credits| < |l.admitted| then 1 else 0)
  }

  lemma WelcomeStays(l: S.Link, move: S.Move)
    requires S.LinkInv(l) && S.Enabled(l, move) && Works(move) && Welcome(l)
    ensures Welcome(S.After(l, move))
  {
    if move.Admit? { S.FrameRead(l); }
    hide S.LinkInv, S.Judged, S.Wanted, X.Accepts, X.ExporterInv;
  }

  lemma AdmitPays(l: S.Link)
    requires S.LinkInv(l) && S.Enabled(l, S.Admit)
    ensures Debt(S.After(l, S.Admit)) < Debt(l)
  {
    S.FrameRead(l);
    var now := S.After(l, S.Admit);
    assert now == l.(admitted := now.admitted, previous := now.previous, inbox := [], creditOut := now.creditOut);
    assert |now.admitted| == |l.admitted| + 1 && |now.creditOut| == CREDIT_BYTES;
    hide *;
  }

  lemma CreditPays(l: S.Link)
    requires S.LinkInv(l) && S.Enabled(l, S.TakeCredit)
    ensures Debt(S.After(l, S.TakeCredit)) < Debt(l)
  {
    S.CreditIsAccepted(l);
    hide S.LinkInv, X.Accepts;
  }

  lemma OtherPays(l: S.Link, move: S.Move)
    requires S.Enabled(l, move) && Works(move) && !move.Admit? && !move.TakeCredit?
    ensures Debt(S.After(l, move)) < Debt(l)
    ensures S.After(l, move).exporter.closed == l.exporter.closed
  {
    hide S.Judged, S.Wanted;
  }

  lemma StaysOpen(l: S.Link, move: S.Move)
    requires S.LinkInv(l) && S.Enabled(l, move) && Works(move) && l.exporter.closed.None? && l.closed.None?
    ensures S.After(l, move).exporter.closed.None? && S.After(l, move).closed.None?
  {
    S.MoveKeepsOpen(l, move);
    hide S.LinkInv, S.Judged, S.Wanted;
  }

  /** Every such move lowers the debt. */
  lemma MoveWorks(l: S.Link, move: S.Move)
    requires Matched(l) && S.Enabled(l, move) && Works(move)
    ensures Matched(S.After(l, move)) && Debt(S.After(l, move)) < Debt(l)
  {
    S.MoveHolds(l, move);
    WelcomeStays(l, move);
    StaysOpen(l, move);
    hide S.After, S.Enabled, S.LinkInv, Welcome, Debt;
    match move {
      case Admit => AdmitPays(l);
      case TakeCredit => CreditPays(l);
      case _ => OtherPays(l, move);
    }
  }

  /** A frame under way is never refused, and while it is not admitted some byte of it can be
      written or read, or it can be admitted. */
  lemma FrameGoesOn(l: S.Link) returns (move: S.Move)
    requires Matched(l) && |l.admitted| < |l.published| && !l.exporter.phase.Writing?
    ensures S.Enabled(l, move) && Works(move)
  {
    S.RefusedExactly(l);
    assert |l.exporter.credits| == |l.admitted| && l.creditOut == [] && l.toWrite == [];
    if S.Judged(l).FrameRead? {
      move := S.Admit;
    } else {
      if |l.inbox| >= HEADER_BYTES { S.HeaderRead(l); }
      var frame := FrameOf(l.contract, S.Last(l.published));
      assert l.inbox + l.data + [] == frame;
      hide S.LinkInv, HeaderAddresses, HeaderSequence, HeaderRevision, HeaderOf, Follows;
      move := S.Move.Read(1);
    }
  }

  /** While the frame's credit has not been taken, some byte of it can be moved or it can be. */
  lemma CreditGoesOn(l: S.Link) returns (move: S.Move)
    requires Matched(l) && |l.admitted| == |l.published| && |l.exporter.credits| < |l.admitted|
    ensures S.Enabled(l, move) && Works(move)
  {
    assert |l.creditIn| + |l.credit| + |l.creditOut| == CREDIT_BYTES by { assert |S.Returning(l)| == CREDIT_BYTES; }
    move := if l.creditOut != [] then S.WriteCredit(1) else if l.credit != [] then S.ReadCredit(1) else S.TakeCredit;
  }

  /** Until the exchange is over some move takes it on. */
  lemma NeverStuck(l: S.Link) returns (move: S.Move)
    requires Matched(l) && !Quiet(l)
    ensures S.Enabled(l, move) && Works(move)
  {
    if l.exporter.phase.Writing? {
      move := if l.toWrite != [] then S.Write(1) else S.Finish;
    } else if |l.admitted| < |l.published| {
      move := FrameGoesOn(l);
    } else if |l.exporter.credits| < |l.admitted| {
      move := CreditGoesOn(l);
    } else {
      assert l.admitted == l.published && |l.exporter.credits| == |l.exporter.admitted|;
      assert !l.exporter.outstanding && l.exporter.credits == l.exporter.admitted == l.exporter.completed;
      move := S.Wake;
    }
  }

  lemma MoreMoves(l: S.Link, move: S.Move, moves: seq<S.Move>)
    requires S.Enabled(l, move) && S.MovesFrom(S.After(l, move), moves)
    ensures S.MovesFrom(l, [move] + moves) && S.Ends(l, [move] + moves) == S.Ends(S.After(l, move), moves)
  {
    hide S.Enabled, S.After;
    assert ([move] + moves)[1..] == moves;
  }

  /** From any point of the exchange a run of at most its debt of moves finishes it: the frame
      under way is admitted, credited and completed, and the exporter is ready for the next. */
  lemma {:induction false} Drains(l: S.Link) returns (moves: seq<S.Move>)
    requires Matched(l)
    ensures S.MovesFrom(l, moves) && |moves| <= Debt(l) && forall k :: 0 <= k < |moves| ==> Works(moves[k])
    ensures Quiet(S.Ends(l, moves)) && S.Ends(l, moves).published == l.published && Matched(S.Ends(l, moves))
    decreases Debt(l)
  {
    hide Matched, Debt, S.Enabled, Works, Quiet, S.After;
    if Quiet(l) {
      moves := [];
    } else {
      var move := NeverStuck(l);
      MoveWorks(l, move);
      SamePublished(l, move);
      var rest := Drains(S.After(l, move));
      MoreMoves(l, move, rest);
      moves := [move] + rest;
    }
  }

  lemma SamePublished(l: S.Link, move: S.Move)
    requires S.Enabled(l, move) && Works(move)
    ensures S.After(l, move).published == l.published
  {
    hide S.Judged, S.Wanted, X.Accepts;
  }

  /** Any number of moves that take the exchange on is at most its debt. */
  lemma {:induction false} WorkIsBounded(l: S.Link, moves: seq<S.Move>)
    requires Matched(l) && S.MovesFrom(l, moves) && forall k :: 0 <= k < |moves| ==> Works(moves[k])
    ensures Matched(S.Ends(l, moves)) && |moves| + Debt(S.Ends(l, moves)) <= Debt(l)
    decreases |moves|
  {
    hide Matched, Debt, S.Enabled, Works, S.After;
    if moves != [] {
      S.FirstMove(l, moves);
      MoveWorks(l, moves[0]);
      WorkIsBounded(S.After(l, moves[0]), moves[1..]);
    }
  }
}
