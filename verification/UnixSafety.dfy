/** Both Unix endpoints over their two sockets: what an importer admits, byte by byte. */
module UnixSafety {
  import opened Wire
  import opened Transport
  import opened UnixExport
  import UnixLink

  /** The exporter's flags and unwritten bytes, the two sockets, and the importer: what it has
      read of the frame at hand, what it admitted and the credit bytes still to write. */
  datatype Link = Link(
    contract: Contract, maxSend: nat, exporter: Exporter, published: seq<Item>, toWrite: seq<Byte>, data: seq<Byte>,
    reader: Contract, maxPayload: nat, inbox: seq<Byte>, previous: Option<U64>, admitted: seq<Item>,
    closed: Option<Error>, creditOut: seq<Byte>, credit: seq<Byte>, creditIn: seq<Byte>)

  /** The sockets carry any positive number of the bytes waiting; either end may fail at any
      time, for whatever the system, the codec or its authority says. */
  datatype Move =
    | Offer(item: Item)
    | Write(count: nat)
    | Finish
    | Wake
    | Read(count: nat)
    | Refuse
    | Admit
    | WriteCredit(count: nat)
    | ReadCredit(count: nat)
    | TakeCredit
    | FailExport(error: Error)
    | FailImport(error: Error)

  /** What the importer makes of the bytes it has read since its last credit. */
  function Judged(l: Link): UnixLink.Verdict { UnixLink.UnixReads(l.reader, l.maxPayload, l.previous, l.inbox) }

  /** How many bytes `read_exact` still asks for: the header's, then the payload's. */
  function Wanted(inbox: seq<Byte>): int {
    if |inbox| < HEADER_BYTES then HEADER_BYTES - |inbox|
    else HEADER_BYTES + HeaderLength(inbox[..HEADER_BYTES]) - |inbox|
  }

  predicate Enabled(l: Link, move: Move) {
    match move
    case Offer(item) => UnixExport.Enabled(l.exporter, Publish(item.sequence)) && |item.payload| <= l.maxSend <= U32_MAX
    case Write(count) => l.exporter.closed.None? && l.exporter.phase.Writing? && 0 < count <= |l.toWrite|
    case Finish => l.toWrite == [] && UnixExport.Enabled(l.exporter, Written)
    case Wake => UnixExport.Enabled(l.exporter, Awaken)
    case Read(count) =>
      l.closed.None? && l.creditOut == [] && Judged(l).Waiting? && 0 < count <= |l.data| && count <= Wanted(l.inbox)
    case Refuse => l.closed.None? && l.creditOut == [] && Judged(l).Refused?
    case Admit => l.closed.None? && l.creditOut == [] && Judged(l).FrameRead?
    case WriteCredit(count) => l.closed.None? && 0 < count <= |l.creditOut|
    case ReadCredit(count) => l.exporter.closed.None? && 0 < count <= |l.credit| && |l.creditIn| + count <= CREDIT_BYTES
    case TakeCredit => |l.creditIn| == CREDIT_BYTES && UnixExport.Enabled(l.exporter, CreditFrame(l.creditIn))
    case FailExport(_) => l.exporter.closed.None?
    case FailImport(_) => l.closed.None?
  }

  function After(l: Link, move: Move): Link
    requires Enabled(l, move)
  {
    match move
    case Offer(item) =>
      l.(exporter := UnixExport.Next(l.exporter, Publish(item.sequence)), published := l.published + [item],
         toWrite := FrameOf(l.contract, item))
    case Write(count) => l.(data := l.data + l.toWrite[..count], toWrite := l.toWrite[count..])
    case Finish => l.(exporter := UnixExport.Next(l.exporter, Written))
    case Wake => l.(exporter := UnixExport.Next(l.exporter, Awaken))
    case Read(count) => l.(inbox := l.inbox + l.data[..count], data := l.data[count..])
    case Refuse => l.(closed := Some(Judged(l).error))
    case Admit =>
      var frame := Judged(l);
      l.(admitted := l.admitted + [Item(frame.sequence, frame.payload)], previous := Some(frame.sequence), inbox := [],
         creditOut := CreditFor(frame.sequence))
    case WriteCredit(count) => l.(credit := l.credit + l.creditOut[..count], creditOut := l.creditOut[count..])
    case ReadCredit(count) => l.(creditIn := l.creditIn + l.credit[..count], credit := l.credit[count..])
    case TakeCredit => l.(exporter := UnixExport.Next(l.exporter, CreditFrame(l.creditIn)), creditIn := [])
    case FailExport(error) => l.(exporter := l.exporter.(closed := Some(error)))
    case FailImport(error) => l.(closed := Some(error))
  }

  // --- Invariant ---

  /** The frame bytes between the two ends. */
  function Flowing(l: Link): seq<Byte> { l.inbox + l.data + l.toWrite }

  /** The credit bytes between the two ends. */
  function Returning(l: Link): seq<Byte> { l.creditIn + l.credit + l.creditOut }

  function Last(items: seq<Item>): Item
    requires items != []
  {
    items[|items| - 1]
  }

  function Sequences(items: seq<Item>): (sequences: seq<U64>)
    ensures |sequences| == |items| && forall k :: 0 <= k < |items| ==> sequences[k] == items[k].sequence
  {
    seq(|items|, k requires 0 <= k < |items| => items[k].sequence)
  }

  /** Between the ends is exactly the frame published and not yet admitted. */
  predicate FrameInv(l: Link) {
    && l.admitted <= l.published && |l.published| <= |l.admitted| + 1
    && (forall k :: 0 <= k < |l.published| ==> |l.published[k].payload| <= U32_MAX)
    && Flowing(l) == (if |l.admitted| == |l.published| then [] else FrameOf(l.contract, Last(l.published)))
    && l.previous == (if l.admitted == [] then None else Some(Last(l.admitted).sequence))
    && (l.toWrite != [] ==> l.exporter.phase.Writing?)
  }

  /** Between the ends is exactly the credit of the frame admitted and not yet credited. */
  predicate CreditInv(l: Link) {
    && |l.exporter.credits| <= |l.admitted|
    && Returning(l) == if |l.exporter.credits| == |l.admitted| then [] else CreditFor(Last(l.admitted).sequence)
  }

  predicate LinkInv(l: Link) {
    && ExporterInv(l.exporter) && l.exporter.admitted == Sequences(l.published)
    && FrameInv(l) && CreditInv(l)
  }

  /** Whatever the importer has read is the start of the frame it is to admit next. */
  lemma InboxIsPrefix(l: Link)
    requires LinkInv(l) && l.inbox != []
    ensures |l.published| == |l.admitted| + 1 && l.inbox <= FrameOf(l.contract, Last(l.published))
    ensures |l.exporter.credits| == |l.admitted| && Returning(l) == []
  {
  }

  /** A header read in full carries the published item's own fields. */
  lemma HeaderRead(l: Link)
    requires LinkInv(l) && |l.inbox| >= HEADER_BYTES
    ensures l.published != [] && |l.published| == |l.admitted| + 1
    ensures var (header, item) := (l.inbox[..HEADER_BYTES], Last(l.published));
            && (HeaderAddresses(header, l.reader)
               <==> l.reader.event == l.contract.event && l.reader.major == l.contract.major)
            && HeaderSequence(header) == item.sequence && HeaderLength(header) == |item.payload|
            && HeaderRevision(header) == l.contract.revision
  {
    InboxIsPrefix(l);
    var item := Last(l.published);
    assert l.inbox[..HEADER_BYTES] == HeaderOf(l.contract, item.sequence, |item.payload|);
    HeaderRoundTrip(l.contract, item.sequence, |item.payload|, l.reader);
  }

  /** A frame read is the last item published, and nothing is left between the ends. */
  lemma FrameRead(l: Link)
    requires LinkInv(l) && Judged(l).FrameRead?
    ensures |l.published| == |l.admitted| + 1 && l.data == [] && l.toWrite == []
    ensures Item(Judged(l).sequence, Judged(l).payload) == Last(l.published)
    ensures Returning(l) == [] && |l.exporter.credits| == |l.admitted|
  {
    HeaderRead(l);
    InboxIsPrefix(l);
    hide HeaderAddresses, HeaderLength, HeaderSequence, HeaderRevision, Follows, HeaderOf;
    var frame := FrameOf(l.contract, Last(l.published));
    assert |l.inbox| == |frame| && l.inbox == frame;
    assert frame[HEADER_BYTES..] == Last(l.published).payload;
    assert l.inbox[HEADER_BYTES..HEADER_BYTES + |Last(l.published).payload|] == frame[HEADER_BYTES..];
  }

  /** The importer refuses exactly a header that names another event or major, is longer than
      it accepts, or does not follow what it admitted: never for how the bytes came. */
  lemma RefusedExactly(l: Link)
    requires LinkInv(l)
    ensures Judged(l).Refused? <==>
              && |l.inbox| >= HEADER_BYTES
              && !(&& l.reader.event == l.contract.event && l.reader.major == l.contract.major
                   && |Last(l.published).payload| <= l.maxPayload
                   && (l.admitted != [] && l.reader.delivery.Ordered? ==>
                         Last(l.published).sequence as int == Last(l.admitted).sequence + 1)
                   && (l.admitted != [] && l.reader.delivery.Latest? ==>
                         Last(l.published).sequence > Last(l.admitted).sequence))
  {
    if |l.inbox| >= HEADER_BYTES { HeaderRead(l); }
  }

  /** A credit read in full names the frame outstanding, so the exporter never takes it for
      an unsolicited one. */
  lemma CreditIsAccepted(l: Link)
    requires LinkInv(l) && |l.creditIn| == CREDIT_BYTES
    ensures Accepts(l.exporter, l.creditIn) && l.credit == [] && l.creditOut == []
    ensures |l.published| == |l.admitted| == |l.exporter.credits| + 1
    ensures l.exporter.sequence == Last(l.admitted).sequence
  {
    assert Returning(l) == CreditFor(Last(l.admitted).sequence);
    assert l.creditIn == CreditFor(Last(l.admitted).sequence);
    CreditNamesSequence(Last(l.admitted).sequence);
  }

  lemma OfferHolds(l: Link, move: Move)
    requires LinkInv(l) && Enabled(l, move) && move.Offer?
    ensures LinkInv(After(l, move))
  {
    StepHolds(l.exporter, Publish(move.item.sequence));
    assert |l.exporter.credits| == |l.exporter.admitted|;
    assert Flowing(l) == [];
  }

  lemma ExporterMoveHolds(l: Link, move: Move)
    requires LinkInv(l) && Enabled(l, move) && (move.Finish? || move.Wake?)
    ensures LinkInv(After(l, move))
  {
    StepHolds(l.exporter, if move.Finish? then Written else Awaken);
  }

  /** Moving bytes from the front of one queue to the back of the one before it. */
  lemma Moved(a: seq<Byte>, b: seq<Byte>, count: nat)
    requires count <= |b|
    ensures (a + b[..count]) + b[count..] == a + b
  {
  }

  lemma Joins(a: seq<Byte>, b: seq<Byte>, c: seq<Byte>)
    ensures (a + b) + c == a + (b + c)
  {
  }

  /** A step that moves bytes along, or one by which an end only stops. */
  predicate Plain(move: Move) {
    || move.Write? || move.Read? || move.WriteCredit? || move.ReadCredit?
    || move.Refuse? || move.FailExport? || move.FailImport?
  }

  lemma BytesMove(l: Link, move: Move)
    requires LinkInv(l) && Enabled(l, move) && Plain(move)
    ensures LinkInv(After(l, move))
  {
    hide *;
    BytesStay(l, move);
    BytesOnly(l, move);
    SameEnds(l, After(l, move));
  }

  predicate SameBut(l: Link, now: Link) {
    && now.exporter.(closed := None) == l.exporter.(closed := None)
    && now.contract == l.contract && now.published == l.published
    && now.admitted == l.admitted && now.previous == l.previous && (l.toWrite == [] ==> now.toWrite == [])
  }

  lemma BytesOnly(l: Link, move: Move)
    requires Enabled(l, move) && Plain(move)
    ensures SameBut(l, After(l, move))
  {
    hide Judged, Wanted;
  }

  lemma SameEnds(l: Link, now: Link)
    requires LinkInv(l) && SameBut(l, now) && Flowing(now) == Flowing(l) && Returning(now) == Returning(l)
    ensures LinkInv(now)
  {
    SameFrames(l, now);
    SameCredits(l, now);
    ClosedAside(l.exporter, now.exporter);
    hide ExporterInv, FrameInv, CreditInv, Flowing, Returning;
    assert now.exporter.admitted == now.exporter.(closed := None).admitted;
  }

  lemma SameFrames(l: Link, now: Link)
    requires FrameInv(l) && SameBut(l, now) && Flowing(now) == Flowing(l)
    ensures FrameInv(now)
  {
    hide FrameOf, Flowing;
    assert now.exporter.phase == now.exporter.(closed := None).phase;
  }

  lemma SameCredits(l: Link, now: Link)
    requires CreditInv(l) && SameBut(l, now) && Returning(now) == Returning(l)
    ensures CreditInv(now)
  {
    hide CreditFor, Returning;
    assert now.exporter.credits == now.exporter.(closed := None).credits;
  }

  lemma ClosedAside(e: Exporter, now: Exporter)
    requires ExporterInv(e) && now.(closed := None) == e.(closed := None)
    ensures ExporterInv(now)
  {
    assert now == e.(closed := now.closed);
  }

  lemma BytesStay(l: Link, move: Move)
    requires Enabled(l, move) && Plain(move)
    ensures Flowing(After(l, move)) == Flowing(l) && Returning(After(l, move)) == Returning(l)
  {
    hide Judged, Wanted;
    match move {
      case Write(count) =>
        Moved(l.data, l.toWrite, count);
        Joins(l.inbox, l.data, l.toWrite);
        Joins(l.inbox, l.data + l.toWrite[..count], l.toWrite[count..]);
      case Read(count) => Moved(l.inbox, l.data, count);
      case WriteCredit(count) =>
        Moved(l.credit, l.creditOut, count);
        Joins(l.creditIn, l.credit, l.creditOut);
        Joins(l.creditIn, l.credit + l.creditOut[..count], l.creditOut[count..]);
      case ReadCredit(count) => Moved(l.creditIn, l.credit, count);
      case _ =>
    }
  }

  lemma AdmitHolds(l: Link, move: Move)
    requires LinkInv(l) && Enabled(l, move) && move.Admit?
    ensures LinkInv(After(l, move))
  {
    FrameRead(l);
    var now := After(l, move);
    hide ExporterInv, FrameOf, CreditFor, UnixLink.UnixReads;
    assert now.admitted == l.published by {
      assert l.published[..|l.admitted|] == l.admitted;
      assert l.published == l.published[..|l.admitted|] + [Last(l.published)];
    }
    assert Returning(now) == CreditFor(Judged(l).sequence);
  }

  lemma TakeCreditHolds(l: Link, move: Move)
    requires LinkInv(l) && Enabled(l, move) && move.TakeCredit?
    ensures LinkInv(After(l, move)) && After(l, move).exporter.closed.None?
  {
    CreditIsAccepted(l);
    StepHolds(l.exporter, CreditFrame(l.creditIn));
    hide FrameOf, CreditFor;
  }

  lemma MoveHolds(l: Link, move: Move)
    requires LinkInv(l) && Enabled(l, move)
    ensures LinkInv(After(l, move))
  {
    hide LinkInv, After, Enabled;
    match move {
      case Offer(_) => OfferHolds(l, move);
      case Finish => ExporterMoveHolds(l, move);
      case Wake => ExporterMoveHolds(l, move);
      case Admit => AdmitHolds(l, move);
      case TakeCredit => TakeCreditHolds(l, move);
      case _ => BytesMove(l, move);
    }
  }

  // --- Runs ---

  function Fresh(contract: Contract, maxSend: nat, reader: Contract, maxPayload: nat): Link {
    Link(contract, maxSend, IDLE, [], [], [], reader, maxPayload, [], None, [], None, [], [], [])
  }

  predicate MovesFrom(l: Link, moves: seq<Move>)
    decreases |moves|
  {
    moves != [] ==> Enabled(l, moves[0]) && MovesFrom(After(l, moves[0]), moves[1..])
  }

  function Ends(l: Link, moves: seq<Move>): Link
    requires MovesFrom(l, moves)
    decreases |moves|
  {
    if moves == [] then l else Ends(After(l, moves[0]), moves[1..])
  }

  lemma FirstMove(l: Link, moves: seq<Move>)
    requires MovesFrom(l, moves)
    ensures moves == [] ==> Ends(l, moves) == l
    ensures moves != [] ==>
              && Enabled(l, moves[0]) && MovesFrom(After(l, moves[0]), moves[1..])
              && Ends(l, moves) == Ends(After(l, moves[0]), moves[1..])
  {
    hide Enabled, After;
  }

  lemma {:induction false} MovesHold(l: Link, moves: seq<Move>)
    requires LinkInv(l) && MovesFrom(l, moves)
    ensures LinkInv(Ends(l, moves))
    decreases |moves|
  {
    hide *;
    FirstMove(l, moves);
    if moves != [] {
      MoveHolds(l, moves[0]);
      MovesHold(After(l, moves[0]), moves[1..]);
    }
  }

  /** Over every run of two Unix endpoints, whatever they were configured for and however the
      sockets cut the bytes: what the importer admits is a prefix of what was published, in
      content and order, at most one frame behind; the exporter takes one credit for each
      admitted frame, in order; and it records each completion once, after the credit. */
  lemma UnixLinkSafety(contract: Contract, maxSend: nat, reader: Contract, maxPayload: nat, moves: seq<Move>)
    requires MovesFrom(Fresh(contract, maxSend, reader, maxPayload), moves)
    ensures var l := Ends(Fresh(contract, maxSend, reader, maxPayload), moves);
            && l.admitted <= l.published && |l.published| <= |l.admitted| + 1
            && l.exporter.credits <= Sequences(l.admitted) && |l.admitted| <= |l.exporter.credits| + 1
            && l.exporter.completed <= l.exporter.credits
            && |l.published| <= |l.exporter.completed| + 1
  {
    var first := Fresh(contract, maxSend, reader, maxPayload);
    assert LinkInv(first);
    MovesHold(first, moves);
    hide Ends, MovesFrom;
    var l := Ends(first, moves);
    assert ExporterInv(l.exporter) && FrameInv(l) && CreditInv(l);
    hide FrameOf, CreditFor;
  }

  lemma MoveKeepsOpen(l: Link, move: Move)
    requires LinkInv(l) && Enabled(l, move) && l.exporter.closed.None? && !move.FailExport?
    ensures After(l, move).exporter.closed.None?
  {
    hide LinkInv;
    if move.TakeCredit? { TakeCreditHolds(l, move); }
  }

  /** No run of moves without failures of its own closes the exporter. */
  lemma {:induction false} ExporterStaysOpen(l: Link, moves: seq<Move>)
    requires LinkInv(l) && MovesFrom(l, moves) && l.exporter.closed.None?
    requires forall k :: 0 <= k < |moves| ==> !moves[k].FailExport?
    ensures Ends(l, moves).exporter.closed.None?
    decreases |moves|
  {
    hide *;
    FirstMove(l, moves);
    if moves != [] {
      MoveHolds(l, moves[0]);
      MoveKeepsOpen(l, moves[0]);
      ExporterStaysOpen(After(l, moves[0]), moves[1..]);
    }
  }
}
