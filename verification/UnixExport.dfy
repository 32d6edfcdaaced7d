/** The Unix exporter's two tasks share three credit flags; they meet only at await points. */
module UnixExport {
  import opened Wire
  import opened Transport

  datatype Phase = Ready | Writing | Waiting

  /** The flags of `Credits`, with the sequences recorded as admitted and as completed. */
  datatype Exporter = Exporter(
    phase: Phase, outstanding: bool, sent: bool, sequence: U64, closed: Option<Error>,
    admitted: seq<U64>, completed: seq<U64>, credits: seq<U64>)

  datatype Step = Publish(sequence: U64) | Written | Awaken | CreditFrame(frame: seq<Byte>)

  predicate Enabled(e: Exporter, step: Step) {
    e.closed.None? &&
    match step
    case Publish(_) => e.phase.Ready?
    case Written => e.phase.Writing?
    case Awaken => e.phase.Waiting? && !e.outstanding
    case CreditFrame(frame) => |frame| == CREDIT_BYTES
  }

  /** A credit names the outstanding frame, or it is a protocol error. */
  predicate Accepts(e: Exporter, frame: seq<Byte>)
    requires |frame| == CREDIT_BYTES
  {
    frame[0] == 1 && e.outstanding && FieldU64(frame[1..]) == e.sequence
  }

  function Next(e: Exporter, step: Step): Exporter
    requires Enabled(e, step)
  {
    match step
    case Publish(sequence) =>
      e.(phase := Writing, outstanding := true, sent := false, sequence := sequence,
         admitted := e.admitted + [sequence])
    case Written =>
      e.(phase := Waiting, sent := true,
         completed := if e.outstanding then e.completed else e.completed + [e.sequence])
    case Awaken => e.(phase := Ready)
    case CreditFrame(frame) =>
      if !Accepts(e, frame) then e.(closed := Some(Protocol))
      else
        e.(outstanding := false, credits := e.credits + [e.sequence],
           completed := if e.sent then e.completed + [e.sequence] else e.completed)
  }

  /** The credit and the last written byte may come in either order; whichever comes
      second records the completion. */
  predicate ExporterInv(e: Exporter) {
    && e.completed <= e.admitted && e.credits <= e.admitted
    && |e.completed| == |e.admitted| - (if e.outstanding || e.phase.Writing? then 1 else 0)
    && |e.credits| == |e.admitted| - (if e.outstanding then 1 else 0)
    && (e.admitted != [] ==> e.sequence == e.admitted[|e.admitted| - 1])
    && (e.phase.Ready? ==> !e.outstanding)
    && (e.phase.Writing? ==> !e.sent && e.admitted != [])
    && (e.phase.Waiting? ==> e.sent && e.admitted != [])
    && (e.outstanding ==> e.admitted != [])
  }

  const IDLE: Exporter := Exporter(Ready, false, false, 0, None, [], [], [])

  lemma StepHolds(e: Exporter, step: Step)
    requires ExporterInv(e) && Enabled(e, step)
    ensures ExporterInv(Next(e, step))
  {
    var n := |e.admitted|;
    assert n > 0 ==> e.admitted[..n - 1] + [e.admitted[n - 1]] == e.admitted;
  }

  predicate Run(e: Exporter, steps: seq<Step>)
    decreases |steps|
  {
    steps != [] ==> Enabled(e, steps[0]) && Run(Next(e, steps[0]), steps[1..])
  }

  function After(e: Exporter, steps: seq<Step>): Exporter
    requires Run(e, steps)
    decreases |steps|
  {
    if steps == [] then e else After(Next(e, steps[0]), steps[1..])
  }

  lemma {:induction false} RunHolds(e: Exporter, steps: seq<Step>)
    requires ExporterInv(e) && Run(e, steps)
    ensures ExporterInv(After(e, steps))
    decreases |steps|
  {
    hide ExporterInv, Next;
    if steps != [] {
      StepHolds(e, steps[0]);
      RunHolds(Next(e, steps[0]), steps[1..]);
    }
  }

  /** In every interleaving each admitted frame's completion is recorded once, in order and
      before the next frame is taken; each accepted credit is for the one frame outstanding. */
  lemma CompletedOnceInOrder(steps: seq<Step>)
    requires Run(IDLE, steps)
    ensures var e := After(IDLE, steps);
            && e.completed <= e.admitted && e.credits <= e.admitted
            && |e.admitted| <= |e.completed| + 1 && |e.completed| <= |e.credits|
            && (e.phase.Ready? ==> e.completed == e.admitted == e.credits)
  {
    RunHolds(IDLE, steps);
  }
}
