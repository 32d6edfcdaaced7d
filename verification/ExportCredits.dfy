/** The credits an exporter takes from a peer it does not trust: which bytes are a credit, and
    that each one taken is for the frame it names. */
module ExportCredits {
  import opened Wire
  import opened Transport
  import opened Machine
  import UnixExport

  // --- The protocol machine ---

  /** A completion that brings the exporter the last byte of a credit. */
  predicate BringsCredit(m: State, input: Input) {
    && m.closed.None? && m.active.creditReceive.Some? && m.active.creditReceive.value.effect.Transfers()
    && input.Completed? && input.op == m.active.creditReceive.value.op && input.result.Bytes?
    && 0 < input.result.count <= m.active.creditReceive.value.effect.length
    && m.offsets.creditReceive + input.result.count == CREDIT_BYTES && CREDIT_BYTES <= |input.buffer|
  }

  /** The sequence of the frame this input provides, if it does. */
  function ProvidedNow(m: State, input: Input): seq<U64>
    requires Inv(m)
  {
    if input.Provided? && Apply(m, input).error.None? then [input.sequence] else []
  }

  /** The credit this input brings, if it is taken. */
  function TakenNow(m: State, input: Input): seq<seq<Byte>>
    requires Inv(m)
  {
    if BringsCredit(m, input) && Apply(m, input).error.None? then [input.buffer[..CREDIT_BYTES]] else []
  }

  /** The machine after a run of inputs, the sequences provided and the credits taken. */
  function Ran(m: State, inputs: seq<Input>): (result: (State, seq<U64>, seq<seq<Byte>>))
    requires Inv(m)
    ensures Inv(result.0)
    decreases |inputs|
  {
    if inputs == [] then (m, [], [])
    else
      var (rest, last) := (Ran(m, inputs[..|inputs| - 1]), inputs[|inputs| - 1]);
      ApplyKeepsInv(rest.0, last);
      (Apply(rest.0, last).next, rest.1 + ProvidedNow(rest.0, last), rest.2 + TakenNow(rest.0, last))
  }

  /** The peer's bytes are a credit for this frame: a one, then its sequence. */
  predicate Names(credit: seq<Byte>, sequence: U64) {
    |credit| == CREDIT_BYTES && credit[0] == 1 && FromLe(credit[1..]) == sequence
  }

  /** Each credit names its frame; an open exporter awaits one for the last frame provided, or
      has one for every frame. */
  predicate Counted(m: State, provided: seq<U64>, taken: seq<seq<Byte>>) {
    && |taken| <= |provided| <= |taken| + 1
    && (forall k :: 0 <= k < |taken| ==> Names(taken[k], provided[k]))
    && (m.closed.None? ==>
          && m.direction.Export?
          && (|provided| == |taken| + 1 <==> !m.credited && (m.stage.Sending? || m.stage.Credit?))
          && (provided != [] ==> m.sequence == provided[|provided| - 1]))
  }

  lemma ReadCredit(bytes: seq<Byte>, sequence: U64)
    requires CREDIT_BYTES <= |bytes|
    ensures Names(bytes[..CREDIT_BYTES], sequence) <==> bytes[0] == 1 && bytes[1..CREDIT_BYTES] == ToLe(sequence, 8)
  {
    var credit := bytes[..CREDIT_BYTES];
    assert credit[1..] == bytes[1..CREDIT_BYTES];
    FieldWidths();
    EncodeDecodeLe(credit[1..]);
    DecodeEncodeLe(sequence, 8);
  }

  /** A whole credit is taken exactly when a frame is uncredited and the bytes name it; anything
      else closes the link as a protocol error. */
  lemma CreditDecides(m: State, input: Input, provided: seq<U64>, taken: seq<seq<Byte>>)
    requires Inv(m) && Counted(m, provided, taken) && BringsCredit(m, input)
    ensures var step := Apply(m, input);
            && (step.error.None? <==>
                  |taken| < |provided| && Names(input.buffer[..CREDIT_BYTES], provided[|taken|]))
            && (step.error.Some? ==> step.next.closed == Some(Protocol))
  {
    var count := input.result.count;
    CompletedMachine(m, CreditReceive, input.op, Bytes(count), input.buffer);
    var moved := m.(active := m.active.Set(CreditReceive, None),
                    offsets := m.offsets.Set(CreditReceive, CREDIT_BYTES));
    assert Complete(m, CreditReceive, Bytes(count), input.buffer) == ProgressCredit(moved, input.buffer);
    ReadCredit(input.buffer, m.sequence);
    hide Apply, Complete, Inv, Names, FirstLane;
  }

  lemma CompletionCounts(m: State, lane: Lane, input: Input, provided: seq<U64>, taken: seq<seq<Byte>>)
    requires Inv(m) && Counted(m, provided, taken) && m.closed.None? && input.Completed?
    requires m.active.Get(lane).Some? && m.active.Get(lane).value.op == input.op
    requires !BringsCredit(m, input)
    ensures Counted(Apply(m, input).next, provided, taken)
  {
    CompletedMachine(m, lane, input.op, input.result, input.buffer);
    LaneOf(m, lane, input.op);
    hide HeaderAddresses, HeaderSequence, HeaderRevision, HeaderLength, Apply, FirstLane, Names;
  }

  lemma LaneOf(m: State, lane: Lane, op: OpId)
    requires Inv(m) && m.active.Get(lane).Some? && m.active.Get(lane).value.op == op
    ensures m.active.creditReceive.Some? && m.active.creditReceive.value.op == op ==> lane.CreditReceive?
    ensures m.active.Get(lane).value.effect.Transfers()
  {
    hide Demand, Bounds;
    match lane case Data => case CreditSend => case CreditReceive =>
  }

  lemma InputCounts(m: State, input: Input, provided: seq<U64>, taken: seq<seq<Byte>>)
    requires Inv(m) && Counted(m, provided, taken)
    ensures Counted(Apply(m, input).next, provided + ProvidedNow(m, input), taken + TakenNow(m, input))
  {
    assert provided + [] == provided && taken + [] == taken;
    if m.closed.Some? {
      ClosureIsFinal(m, input);
    } else if BringsCredit(m, input) {
      CreditDecides(m, input, provided, taken);
      CreditCounts(m, input, provided, taken);
    } else if input.Completed? {
      var lane := FirstLane(m.active, input.op);
      hide Counted, Inv, BringsCredit;
      if lane.Some? { CompletionCounts(m, lane.value, input, provided, taken); }
    } else {
      hide Complete, Demand, Names;
    }
  }

  lemma CreditCounts(m: State, input: Input, provided: seq<U64>, taken: seq<seq<Byte>>)
    requires Inv(m) && Counted(m, provided, taken) && BringsCredit(m, input)
    requires Apply(m, input).error.None? ==>
               |taken| < |provided| && Names(input.buffer[..CREDIT_BYTES], provided[|taken|])
    ensures Counted(Apply(m, input).next, provided, taken + TakenNow(m, input))
  {
    CompletedMachine(m, CreditReceive, input.op, input.result, input.buffer);
    hide Names, Apply, FirstLane, Demand;
  }

  lemma {:induction false} RunCounts(m: State, inputs: seq<Input>)
    requires Inv(m) && Counted(m, [], [])
    ensures Counted(Ran(m, inputs).0, Ran(m, inputs).1, Ran(m, inputs).2)
    decreases |inputs|
  {
    hide Counted, Apply, ProvidedNow, TakenNow, Inv;
    if inputs != [] {
      var rest := inputs[..|inputs| - 1];
      RunCounts(m, rest);
      InputCounts(Ran(m, rest).0, inputs[|inputs| - 1], Ran(m, rest).1, Ran(m, rest).2);
    }
  }

  /** Whatever the peer sends and in whatever order the inputs come, each credit an exporter has
      taken is a one and the sequence of the frame it credits, frame by frame, and it asks for the
      next frame only once every frame before has been credited. */
  lemma CreditsNameFrames(contract: Contract, capacity: nat, inputs: seq<Input>)
    requires ValidCapacity(capacity)
    ensures var (m, provided, taken) := Ran(Fresh(contract, Export, capacity), inputs);
            && |taken| <= |provided| <= |taken| + 1
            && (forall k :: 0 <= k < |taken| ==>
                  |taken[k]| == CREDIT_BYTES && taken[k][0] == 1 && FromLe(taken[k][1..]) == provided[k])
            && (m.closed.None? && EffectOf(m, Data) == Some(Provide) ==> |provided| == |taken|)
  {
    RunCounts(Fresh(contract, Export, capacity), inputs);
  }

  /** At any point of any run, a whole credit is taken exactly when a frame waits for one and the
      bytes name that frame, and otherwise closes the link. */
  lemma CreditTakenExactly(contract: Contract, capacity: nat, inputs: seq<Input>, input: Input)
    requires ValidCapacity(capacity) && BringsCredit(Ran(Fresh(contract, Export, capacity), inputs).0, input)
    ensures var (m, provided, taken) := Ran(Fresh(contract, Export, capacity), inputs);
            var step := Apply(m, input);
            && (step.error.None? <==>
                  && |taken| < |provided| && input.buffer[0] == 1
                  && FromLe(input.buffer[1..CREDIT_BYTES]) == provided[|taken|])
            && (step.error.Some? ==> step.next.closed == Some(Protocol))
  {
    var m := Fresh(contract, Export, capacity);
    RunCounts(m, inputs);
    hide Apply, Ran;
    CreditDecides(Ran(m, inputs).0, input, Ran(m, inputs).1, Ran(m, inputs).2);
    assert input.buffer[..CREDIT_BYTES][1..] == input.buffer[1..CREDIT_BYTES];
  }

  // --- The Unix exporter ---

  /** The credit frame this step has the exporter take. */
  function UnixTakenNow(e: UnixExport.Exporter, step: UnixExport.Step): seq<seq<Byte>>
    requires UnixExport.Enabled(e, step)
  {
    if step.CreditFrame? && UnixExport.Next(e, step).closed.None? then [step.frame] else []
  }

  function UnixTaken(e: UnixExport.Exporter, steps: seq<UnixExport.Step>): seq<seq<Byte>>
    requires UnixExport.Run(e, steps)
    decreases |steps|
  {
    if steps == [] then []
    else UnixTakenNow(e, steps[0]) + UnixTaken(UnixExport.Next(e, steps[0]), steps[1..])
  }

  predicate UnixCounted(e: UnixExport.Exporter, taken: seq<seq<Byte>>) {
    && UnixExport.ExporterInv(e) && |taken| == |e.credits|
    && forall k :: 0 <= k < |taken| ==> Names(taken[k], e.admitted[k])
  }

  lemma UnixStepCounts(e: UnixExport.Exporter, step: UnixExport.Step, taken: seq<seq<Byte>>)
    requires UnixCounted(e, taken) && UnixExport.Enabled(e, step)
    ensures UnixCounted(UnixExport.Next(e, step), taken + UnixTakenNow(e, step))
  {
    UnixExport.StepHolds(e, step);
    assert taken + [] == taken;
    if step.CreditFrame? { assert step.frame[1..] == step.frame[1..CREDIT_BYTES]; }
  }

  lemma {:induction false} UnixRunCounts(e: UnixExport.Exporter, steps: seq<UnixExport.Step>, taken: seq<seq<Byte>>)
    requires UnixCounted(e, taken) && UnixExport.Run(e, steps)
    ensures UnixCounted(UnixExport.After(e, steps), taken + UnixTaken(e, steps))
    decreases |steps|
  {
    hide UnixCounted, UnixExport.Next, UnixTakenNow;
    if steps == [] {
      assert taken + [] == taken;
    } else {
      UnixStepCounts(e, steps[0], taken);
      var (now, next) := (UnixTakenNow(e, steps[0]), UnixExport.Next(e, steps[0]));
      UnixRunCounts(next, steps[1..], taken + now);
      assert taken + (now + UnixTaken(next, steps[1..])) == (taken + now) + UnixTaken(next, steps[1..]);
    }
  }

  /** In every interleaving of the exporter's two tasks and whatever the peer sends, the credit
      frames taken name the frames admitted one by one; and the next one is taken exactly when a
      frame is still uncredited and it names that frame. */
  lemma UnixCreditsNameFrames(steps: seq<UnixExport.Step>, frame: seq<Byte>)
    requires UnixExport.Run(UnixExport.IDLE, steps) && |frame| == CREDIT_BYTES
    ensures var (e, taken) := (UnixExport.After(UnixExport.IDLE, steps), UnixTaken(UnixExport.IDLE, steps));
            && |taken| == |e.credits| <= |e.admitted|
            && (forall k :: 0 <= k < |taken| ==>
                  |taken[k]| == CREDIT_BYTES && taken[k][0] == 1 && FromLe(taken[k][1..]) == e.admitted[k])
            && (e.closed.None? ==>
                  && UnixExport.Enabled(e, UnixExport.CreditFrame(frame))
                  && var next := UnixExport.Next(e, UnixExport.CreditFrame(frame));
                     && (next.closed.None? <==>
                           |taken| < |e.admitted| && frame[0] == 1 && FromLe(frame[1..]) == e.admitted[|taken|])
                     && next.closed in {None, Some(Protocol)})
  {
    UnixRunCounts(UnixExport.IDLE, steps, []);
    var taken := UnixTaken(UnixExport.IDLE, steps);
    assert [] + taken == taken;
  }
}
