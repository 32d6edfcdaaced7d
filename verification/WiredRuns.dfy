/** Runs of two drivers with a link between them: whatever is called on either, the link's
    safety holds of what their owners provided and admitted. */
module WiredRuns {
  import opened Wire
  import opened Transport
  import opened Machine
  import opened Operations
  import opened Slots
  import opened Kernel
  import opened ReadyRing
  import opened Shutdown
  import opened Completions
  import opened Passes
  import opened Calls
  import opened Wired
  import L = Link
  import S = LinkSafety

  // --- One call of one driver ---

  /** The owner's offer at slot `x` is taken. */
  predicate Offers(a: View, call: Call, x: nat) {
    && call.Export? && call.index == x && Holds(a, x)
    && Given(a.slots[x], call.contract, call.sequence, call.coded, call.revoked).error.None?
  }

  /** The owner's report of an admission at slot `x` reaches the machine. */
  predicate Reports(a: View, call: Call, x: nat) {
    call.Import? && call.index == x && Holds(a, x) && IsOpen(a.slots[x]) && !call.lost
  }

  /** What the ends' own loops and the kernel keep to: a frame offered is an encoded item, an
      admission reported is one delivered, and completions report what was moved. */
  predicate Faithful(l: L.Link, side: L.Side, x: nat, a: View, call: Call, report: Report, item: Item) {
    && (Offers(a, call, x) ==>
          && side.Exporter? && call.coded.Fits? && call.coded.length == HEADER_BYTES + |item.payload|
          && call.sequence == item.sequence)
    && (Reports(a, call, x) ==> side.Importer? && |l.log.delivered| == |l.log.admitted| + 1)
    && (report.MadePass? ==> Honest(l, side, x, report.t.was, report.t.cqes))
  }

  function Take(l: L.Link, step: L.LinkStep): L.Link { if L.Enabled(l, step) then L.Next(l, step) else l }

  /** The link after a driver's call. */
  function CallLink(l: L.Link, side: L.Side, x: nat, a: View, call: Call, report: Report, b: View, item: Item): L.Link {
    if report.MadePass? then PassLink(l, side, x, report.t)
    else if Offers(a, call, x) then Take(l, L.Provide(item))
    else if Reports(a, call, x) then Take(l, L.Admit)
    else if x < |b.slots| && b.slots[x].protocol.Some? then WithMachine(l, side, b.slots[x].protocol.value)
    else l
  }

  /** What the call adds to the link's history: the item of an offer taken, the frame of an
      admission reported, and nothing else. */
  predicate Adds(l: L.Link, x: nat, a: View, call: Call, item: Item, now: L.Link) {
    && now.log.provided == (if Offers(a, call, x) then l.log.provided + [item] else l.log.provided)
    && now.log.delivered == l.log.delivered
    && now.log.admitted == (if Reports(a, call, x) then l.log.delivered else l.log.admitted)
  }

  lemma FailedShut(slot: Slot, error: Error, m: State)
    requires HasMachine(slot) && (slot.protocol.value.closed.Some? || slot.protocol.value == m) && Inv(m)
    ensures var now := Concluded(Answer(slot, Some(error)));
            && (slot.protocol.value.closed.Some? ==> now.protocol == slot.protocol)
            && (slot.protocol.value == m ==> now.protocol == Some(Apply(m, Close(error)).next))
  {
    hide Inv;
  }

  /** A refused offer leaves the machine as it was or closes it. */
  lemma RefusedOffer(slot: Slot, contract: Contract, sequence: U64, coded: Coded, revoked: (bool, bool))
    returns (input: Input)
    requires HasMachine(slot) && Given(slot, contract, sequence, coded, revoked).error.Some?
    ensures var answer := Given(slot, contract, sequence, coded, revoked);
            && HasMachine(answer.slot) && HasMachine(Concluded(answer)) && (input.Revoke? || input.Close?)
            && Closes(slot, Concluded(answer), input)
  {
    GivenTurns(slot, contract, sequence, coded, revoked);
    var (m, answer) := (slot.protocol.value, Given(slot, contract, sequence, coded, revoked));
    hide Inv, EffectOf, Apply, TurnOf, OwnerOnly, Concluded, Shut;
    if answer.slot == slot {
      input := Close(answer.error.value);
      FailedShut(slot, answer.error.value, m);
    } else if answer.slot == WithInput(slot, Revoke) {
      input := Revoke;
      RevokedInput(slot);
      FailedShut(answer.slot, answer.error.value, m);
    } else {
      input := Close(Protocol);
      RefusedFrame(m, sequence, coded.length);
      OwnerInputs(slot, Provided(sequence, coded.length));
      FailedShut(answer.slot, answer.error.value, m);
    }
  }

  lemma RefusedFrame(m: State, sequence: U64, length: nat)
    requires Inv(m) && m.closed.None? && Apply(m, Provided(sequence, length)).error.Some?
    ensures Apply(m, Provided(sequence, length)).next == Apply(m, Close(Protocol)).next
  {
  }

  /** A report that does not reach the machine leaves it as it was or closes it. */
  lemma RefusedReport(slot: Slot, lost: bool) returns (input: Input)
    requires HasMachine(slot) && !(IsOpen(slot) && !lost)
    ensures var answer := Received(slot, lost);
            && HasMachine(answer.slot) && HasMachine(Concluded(answer)) && (input.Revoke? || input.Close?)
            && Closes(slot, Concluded(answer), input)
  {
    ReceivedTurns(slot, lost);
    var (m, answer) := (slot.protocol.value, Received(slot, lost));
    hide Inv, Apply, TurnOf, OwnerOnly, Concluded, Shut;
    if IsClosed(slot) {
      input := Close(answer.error.value);
    } else {
      input := Revoke;
      RevokedInput(slot);
    }
    FailedShut(answer.slot, answer.error.value, m);
  }

  lemma LookedMachine(slot: Slot, poll: Poll, revoked: (bool, bool), anew: bool)
    requires HasMachine(slot)
    ensures var glance := Looked(slot, poll, revoked, anew);
            && (IsClosed(slot) ==> glance.slot.protocol == slot.protocol)
            && glance.slot.protocol in {slot.protocol, WithInput(slot, Revoke).protocol}
  {
    hide Inv, Found, Apply;
  }

  /** A poll leaves the machine as it was or closes it. */
  lemma LookCloses(slot: Slot, poll: Poll, revoked: (bool, bool), anew: bool) returns (input: Input)
    requires HasMachine(slot)
    ensures var glance := Looked(slot, poll, revoked, anew);
            && HasMachine(glance.slot) && HasMachine(LookedOut(glance)) && (input.Revoke? || input.Close?)
            && Closes(slot, LookedOut(glance), input)
  {
    var parked := LookedTurns(slot, poll, revoked, anew);
    LookedMachine(slot, poll, revoked, anew);
    hide Inv, Apply, TurnOf, OwnerOnly, Concluded, Shut, Looked;
    var (m, glance) := (slot.protocol.value, Looked(slot, poll, revoked, anew));
    input := Revoke;
    if glance.polled.Fails? {
      if glance.slot.protocol == slot.protocol {
        input := Close(glance.polled.error);
      } else {
        RevokedInput(slot);
      }
      FailedShut(glance.slot, glance.polled.error, m);
    }
  }

  lemma TakenFrame(m: State, sequence: U64, length: nat)
    requires Inv(m) && m.closed.None? && Apply(m, Provided(sequence, length)).error.None?
    ensures HEADER_BYTES <= length <= m.capacity && m.capacity - HEADER_BYTES <= U32_MAX
  {
  }

  lemma OfferTaken(slot: Slot, contract: Contract, sequence: U64, coded: Coded, revoked: (bool, bool))
    requires HasMachine(slot) && Given(slot, contract, sequence, coded, revoked).error.None? && coded.Fits?
    ensures EffectOf(slot.protocol.value, Data) == Some(Provide)
    ensures HEADER_BYTES <= coded.length <= slot.protocol.value.capacity
    ensures slot.protocol.value.capacity - HEADER_BYTES <= U32_MAX
    ensures var answer := Given(slot, contract, sequence, coded, revoked);
            && HasMachine(answer.slot) && Concluded(answer) == WithInput(slot, Provided(sequence, coded.length))
  {
    GivenTurns(slot, contract, sequence, coded, revoked);
    hide Inv, Apply, EffectOf, TurnOf, OwnerOnly;
    TakenFrame(slot.protocol.value, sequence, coded.length);
  }

  lemma ProvideNext(l: L.Link, item: Item)
    requires L.LinkInv(l) && EffectOf(l.exporter.machine, Data) == Some(Provide)
    requires |item.payload| <= U32_MAX && HEADER_BYTES + |item.payload| <= l.exporter.machine.capacity
    ensures var now := L.Next(l, L.Provide(item));
            && L.Enabled(l, L.Provide(item)) && now.log == l.log.(provided := l.log.provided + [item])
            && now.exporter.machine == Apply(l.exporter.machine,
                                             Provided(item.sequence, HEADER_BYTES + |item.payload|)).next
  {
    SoundEnds(l);
    hide L.LinkInv, Inv, Apply, EffectOf;
  }

  lemma OfferDrives(l: L.Link, side: L.Side, x: nat, a: View, call: Call, b: View, item: Item)
    requires L.LinkInv(l) && x < |a.slots| && Carries(l, side, a.slots[x])
    requires Offers(a, call, x) && StepOf(a, call, Quiet, b) && Faithful(l, side, x, a, call, Quiet, item)
    ensures var now := Take(l, L.Provide(item));
            && Drives(l, side, [L.Provide(item)], now) && x < |b.slots| && Carries(now, side, b.slots[x])
            && now.log == l.log.(provided := l.log.provided + [item])
  {
    var slot := a.slots[x];
    OfferTaken(slot, call.contract, call.sequence, call.coded, call.revoked);
    InputHolds2(slot, Provided(call.sequence, call.coded.length));
    hide L.LinkInv, Inv, Apply, EffectOf, Given, Concluded, Enqueued;
    ProvideNext(l, item);
    hide L.Next, L.Enabled;
    OneStep(l, side, L.Provide(item));
  }

  lemma InputHolds2(slot: Slot, input: Input)
    requires HasMachine(slot)
    ensures HasMachine(WithInput(slot, input))
  {
    hide Inv;
    ApplyKeepsInv(slot.protocol.value, input);
  }

  lemma AdmitNext(l: L.Link)
    requires L.LinkInv(l) && |l.log.delivered| == |l.log.admitted| + 1 && l.importer.machine.closed.None?
    ensures var now := L.Next(l, L.Admit);
            && L.Enabled(l, L.Admit) && now.log == l.log.(admitted := l.log.delivered)
            && Inv(l.importer.machine) && now.importer.machine == Apply(l.importer.machine, Input.Admitted).next
            && Apply(l.importer.machine, Input.Admitted).error.None?
  {
    var n := |l.log.admitted|;
    assert l.log.delivered == l.log.delivered[..n] + [l.log.delivered[n]];
    hide L.DataWire, L.CreditWire, L.ExporterLane;
  }

  lemma ReportDrives(l: L.Link, side: L.Side, x: nat, a: View, call: Call, b: View, item: Item)
    requires L.LinkInv(l) && x < |a.slots| && Carries(l, side, a.slots[x])
    requires Reports(a, call, x) && StepOf(a, call, Quiet, b) && Faithful(l, side, x, a, call, Quiet, item)
    ensures var now := Take(l, L.Admit);
            && Drives(l, side, [L.Admit], now) && x < |b.slots| && Carries(now, side, b.slots[x])
            && now.log == l.log.(admitted := l.log.delivered)
  {
    InputHolds2(a.slots[x], Input.Admitted);
    hide L.LinkInv, Inv, Apply, EffectOf, Enqueued;
    AdmitNext(l);
    hide L.Next, L.Enabled;
    OneStep(l, side, L.Admit);
  }

  /** Any call but a pass, an offer taken or an admission reported leaves the machine at `x`
      as it was or closes it. */
  lemma OtherCall(a: View, call: Call, report: Report, b: View, x: nat) returns (input: Input)
    requires Sound(a) && StepOf(a, call, report, b) && !report.MadePass? && x < |a.slots| && HasMachine(a.slots[x])
    requires x < |b.slots| && HasMachine(b.slots[x]) && !Offers(a, call, x) && !Reports(a, call, x)
    ensures (input.Revoke? || input.Close?) && Closes(a.slots[x], b.slots[x], input)
  {
    hide AllSlots, KernelInv, Attended, Apply, Inv, Given, Received, Concluded, Enqueued, WindsAll, Attached, Recorded;
    hide Looked;
    input := Revoke;
    match call {
      case Attach(_, _, _) =>
      case Export(index, contract, sequence, coded, revoked) =>
        if index == x && Holds(a, x) { input := RefusedOffer(a.slots[x], contract, sequence, coded, revoked); }
      case Import(index, lost) =>
        if index == x && Holds(a, x) { input := RefusedReport(a.slots[x], lost); }
      case Look(index, poll, revoked, anew) =>
        if index == x && Holds(a, x) { input := LookCloses(a.slots[x], poll, revoked, anew); }
      case Drop(index) => if index == x && Holds(a, x) { input := Close(Error.Closed); }
      case Stop => input := Close(Error.Closed);
      case Dispatch(_) =>
      case Advance(_, _, _) =>
    }
  }

  /** Every call of a driver, as far as the link at slot `x` goes, is a run of the link's steps. */
  lemma CallDrives(l: L.Link, side: L.Side, x: nat, a: View, call: Call, report: Report, b: View, item: Item)
    returns (steps: seq<L.LinkStep>)
    requires L.LinkInv(l) && Sound(a) && StepOf(a, call, report, b)
    requires x < |a.slots| && Carries(l, side, a.slots[x]) && x < |b.slots| && HasMachine(b.slots[x])
    requires Faithful(l, side, x, a, call, report, item)
    ensures var now := CallLink(l, side, x, a, call, report, b, item);
            Drives(l, side, steps, now) && Carries(now, side, b.slots[x]) && Adds(l, x, a, call, item, now)
  {
    ReportKinds(a, call, report, b, x);
    if report.MadePass? { FaithfulPass(l, side, x, a, call, report, item); }
    hide *;
    hide CallLink, Adds, Take, Silent;
    if report.MadePass? {
      steps := PassDrives(l, side, x, a, call.budget, call.deferred, call.cqes, report.t, b);
      PassAdds(l, side, x, a, call, report, b, item);
    } else if Offers(a, call, x) {
      OfferDrives(l, side, x, a, call, b, item);
      steps := [L.Provide(item)];
      OfferAdds(l, side, x, a, call, report, b, item);
    } else if Reports(a, call, x) {
      ReportDrives(l, side, x, a, call, b, item);
      steps := [L.Admit];
      ReportAdds(l, side, x, a, call, report, b, item);
    } else {
      CarriesMachine(l, side, a.slots[x]);
      var input := OtherCall(a, call, report, b, x);
      steps := OtherDrives(l, side, x, a, call, report, b, input, item);
    }
  }

  lemma OtherDrives(l: L.Link, side: L.Side, x: nat, a: View, call: Call, report: Report, b: View, input: Input,
                    item: Item)
    returns (steps: seq<L.LinkStep>)
    requires L.LinkInv(l) && x < |a.slots| && x < |b.slots| && Carries(l, side, a.slots[x]) && HasMachine(b.slots[x])
    requires !report.MadePass? && !Offers(a, call, x) && !Reports(a, call, x)
    requires (input.Revoke? || input.Close?) && Closes(a.slots[x], b.slots[x], input)
    ensures var now := CallLink(l, side, x, a, call, report, b, item);
            Drives(l, side, steps, now) && Carries(now, side, b.slots[x]) && Adds(l, x, a, call, item, now)
  {
    hide L.LinkInv, Inv, Apply, Drives, Offers, Reports;
    steps := Interrupted(l, side, a.slots[x], input, b.slots[x].protocol.value);
    CarriesSet(l, side, b.slots[x]);
  }

  lemma PassAdds(l: L.Link, side: L.Side, x: nat, a: View, call: Call, report: Report, b: View, item: Item)
    requires report.MadePass? && IsPass(call) && Silent(l, PassLink(l, side, x, report.t))
    ensures CallLink(l, side, x, a, call, report, b, item) == PassLink(l, side, x, report.t)
    ensures Adds(l, x, a, call, item, PassLink(l, side, x, report.t))
  {
    hide PassLink;
  }

  lemma OfferAdds(l: L.Link, side: L.Side, x: nat, a: View, call: Call, report: Report, b: View, item: Item)
    requires !report.MadePass? && Offers(a, call, x)
    requires Take(l, L.Provide(item)).log == l.log.(provided := l.log.provided + [item])
    ensures CallLink(l, side, x, a, call, report, b, item) == Take(l, L.Provide(item))
    ensures Adds(l, x, a, call, item, Take(l, L.Provide(item)))
  {
    hide Take, Given;
  }

  lemma ReportAdds(l: L.Link, side: L.Side, x: nat, a: View, call: Call, report: Report, b: View, item: Item)
    requires !report.MadePass? && Reports(a, call, x) && Take(l, L.Admit).log == l.log.(admitted := l.log.delivered)
    ensures CallLink(l, side, x, a, call, report, b, item) == Take(l, L.Admit)
    ensures Adds(l, x, a, call, item, Take(l, L.Admit))
  {
    hide Take, Given;
  }

  lemma FaithfulPass(l: L.Link, side: L.Side, x: nat, a: View, call: Call, report: Report, item: Item)
    requires Faithful(l, side, x, a, call, report, item) && report.MadePass?
    ensures Honest(l, side, x, report.t.was, report.t.cqes)
  {
    hide Honest, Offers, Reports;
  }

  lemma ReportKinds(a: View, call: Call, report: Report, b: View, x: nat)
    requires StepOf(a, call, report, b)
    ensures report.MadePass? ==>
              IsPass(call) && PassOf(a, call.budget, call.deferred, Answers(a.slots, call.cqes), report.t, b)
    ensures Offers(a, call, x) || Reports(a, call, x) ==> report.Quiet?
  {
    hide PassOf, Given, Received, Concluded;
  }

  // --- Both drivers ---

  /** The exporting driver, the importing driver, and the link between them. */
  datatype World = World(a: View, b: View, l: L.Link)

  /** A call on either driver, the importing loop handing its frame to the local sender, or the
      kernel moving bytes of a submitted transfer. */
  datatype Happening =
    | AtExporter(call: Call, report: Report, item: Item)
    | AtImporter(call: Call, report: Report)
    | Delivers
    | Moves(side: L.Side, lane: Lane, count: nat)

  const NO_ITEM: Item := Item(0, [])

  /** Each end's slot holds the machine of its end of the link. */
  ghost predicate Joined(w: World, x: nat, y: nat) {
    && Sound(w.a) && Sound(w.b) && L.LinkInv(w.l) && x < |w.a.slots| && y < |w.b.slots|
    && Carries(w.l, L.Exporter, w.a.slots[x]) && Carries(w.l, L.Importer, w.b.slots[y])
  }

  /** The connections at slots `x` and `y` are not retired. */
  ghost predicate WorldStep(w: World, x: nat, y: nat, h: Happening, now: World) {
    match h
    case AtExporter(call, report, item) =>
      && StepOf(w.a, call, report, now.a) && Sound(now.a) && now.b == w.b && x < |now.a.slots|
      && HasMachine(now.a.slots[x])
      && Faithful(w.l, L.Exporter, x, w.a, call, report, item)
      && now.l == CallLink(w.l, L.Exporter, x, w.a, call, report, now.a, item)
    case AtImporter(call, report) =>
      && StepOf(w.b, call, report, now.b) && Sound(now.b) && now.a == w.a && y < |now.b.slots|
      && HasMachine(now.b.slots[y])
      && Faithful(w.l, L.Importer, y, w.b, call, report, NO_ITEM)
      && now.l == CallLink(w.l, L.Importer, y, w.b, call, report, now.b, NO_ITEM)
    case Delivers => L.Enabled(w.l, L.Deliver) && now == w.(l := L.Next(w.l, L.Deliver))
    case Moves(side, lane, count) =>
      L.Enabled(w.l, L.Move(side, lane, count)) && now == w.(l := L.Next(w.l, L.Move(side, lane, count)))
  }

  /** The exporting driver took the item its loop offered. */
  predicate Takes(w: World, x: nat, h: Happening) { h.AtExporter? && Offers(w.a, h.call, x) }

  /** The importing driver was told of an admission. */
  predicate Admits(w: World, y: nat, h: Happening) { h.AtImporter? && Reports(w.b, h.call, y) }

  /** The link's history grows by exactly what the drivers' calls took and reported. */
  predicate Tells(w: World, x: nat, y: nat, h: Happening, now: L.Link) {
    && now.log.provided == (if Takes(w, x, h) then w.l.log.provided + [h.item] else w.l.log.provided)
    && now.log.admitted == (if Admits(w, y, h) then w.l.log.delivered else w.l.log.admitted)
    && (Admits(w, y, h) ==> |w.l.log.delivered| == |w.l.log.admitted| + 1)
  }

  lemma MoveKeepsMachines(l: L.Link, step: L.LinkStep)
    requires L.Enabled(l, step) && (step.Deliver? || step.Move?)
    ensures L.Next(l, step).log.provided == l.log.provided && L.Next(l, step).log.admitted == l.log.admitted
    ensures L.Next(l, step).exporter.machine == l.exporter.machine
            && L.Next(l, step).importer.machine == l.importer.machine
  {
  }

  lemma BytesMove(l: L.Link, step: L.LinkStep)
    requires L.LinkInv(l) && L.Enabled(l, step) && (step.Deliver? || step.Move?)
    ensures S.Run(l, [step]) && S.Reached(l, [step]) == L.Next(l, step) && L.LinkInv(L.Next(l, step))
  {
    var side := if step.Deliver? then L.Importer else step.side;
    OneStep(l, side, step);
  }

  lemma FaithfulSide(l: L.Link, side: L.Side, x: nat, a: View, call: Call, report: Report, item: Item)
    requires Faithful(l, side, x, a, call, report, item)
    ensures Offers(a, call, x) ==> side.Exporter?
    ensures Reports(a, call, x) ==> side.Importer? && |l.log.delivered| == |l.log.admitted| + 1
  {
    hide Honest, Offers, Reports;
  }

  lemma ExporterStep(w: World, x: nat, y: nat, h: Happening, now: World) returns (steps: seq<L.LinkStep>)
    requires Joined(w, x, y) && WorldStep(w, x, y, h, now) && h.AtExporter?
    ensures Joined(now, x, y) && S.Run(w.l, steps) && S.Reached(w.l, steps) == now.l
    ensures Tells(w, x, y, h, now.l)
  {
    hide L.LinkInv, Sound, StepOf, CallLink, Faithful, Inv, Offers, Reports, Carries, HasMachine, Drives, Adds, Tells;
    steps := CallDrives(w.l, L.Exporter, x, w.a, h.call, h.report, now.a, h.item);
    ExporterTells(w, x, y, h, now);
    ExporterJoined(w, x, y, h, now, steps);
  }

  lemma ExporterTells(w: World, x: nat, y: nat, h: Happening, now: World)
    requires WorldStep(w, x, y, h, now) && h.AtExporter? && x < |w.a.slots|
    requires Adds(w.l, x, w.a, h.call, h.item, now.l)
    ensures Tells(w, x, y, h, now.l)
  {
    FaithfulSide(w.l, L.Exporter, x, w.a, h.call, h.report, h.item);
    hide L.LinkInv, Sound, StepOf, CallLink, Faithful, Inv, Offers, Reports, HasMachine;
  }

  lemma ExporterJoined(w: World, x: nat, y: nat, h: Happening, now: World, steps: seq<L.LinkStep>)
    requires Joined(w, x, y) && WorldStep(w, x, y, h, now) && h.AtExporter? && Drives(w.l, L.Exporter, steps, now.l)
    requires Carries(now.l, L.Exporter, now.a.slots[x])
    ensures Joined(now, x, y) && S.Run(w.l, steps) && S.Reached(w.l, steps) == now.l
  {
    hide L.LinkInv, Sound, StepOf, CallLink, Faithful, Inv, S.Run, S.Reached, HasMachine, Adds;
  }

  lemma ImporterStep(w: World, x: nat, y: nat, h: Happening, now: World) returns (steps: seq<L.LinkStep>)
    requires Joined(w, x, y) && WorldStep(w, x, y, h, now) && h.AtImporter?
    ensures Joined(now, x, y) && S.Run(w.l, steps) && S.Reached(w.l, steps) == now.l
    ensures Tells(w, x, y, h, now.l)
  {
    hide L.LinkInv, Sound, StepOf, CallLink, Faithful, Inv, Offers, Reports, Carries, HasMachine, Drives, Adds, Tells;
    steps := CallDrives(w.l, L.Importer, y, w.b, h.call, h.report, now.b, NO_ITEM);
    ImporterTells(w, x, y, h, now);
    ImporterJoined(w, x, y, h, now, steps);
  }

  lemma ImporterTells(w: World, x: nat, y: nat, h: Happening, now: World)
    requires WorldStep(w, x, y, h, now) && h.AtImporter? && y < |w.b.slots|
    requires Adds(w.l, y, w.b, h.call, NO_ITEM, now.l)
    ensures Tells(w, x, y, h, now.l)
  {
    FaithfulSide(w.l, L.Importer, y, w.b, h.call, h.report, NO_ITEM);
    hide L.LinkInv, Sound, StepOf, CallLink, Faithful, Inv, Offers, Reports, HasMachine;
  }

  lemma ImporterJoined(w: World, x: nat, y: nat, h: Happening, now: World, steps: seq<L.LinkStep>)
    requires Joined(w, x, y) && WorldStep(w, x, y, h, now) && h.AtImporter? && Drives(w.l, L.Importer, steps, now.l)
    requires Carries(now.l, L.Importer, now.b.slots[y])
    ensures Joined(now, x, y) && S.Run(w.l, steps) && S.Reached(w.l, steps) == now.l
  {
    hide L.LinkInv, Sound, StepOf, CallLink, Faithful, Inv, S.Run, S.Reached, HasMachine, Adds;
  }

  /** Whatever happens in the world is a run of the link. */
  lemma WorldDrives(w: World, x: nat, y: nat, h: Happening, now: World) returns (steps: seq<L.LinkStep>)
    requires Joined(w, x, y) && WorldStep(w, x, y, h, now)
    ensures Joined(now, x, y) && S.Run(w.l, steps) && S.Reached(w.l, steps) == now.l && Tells(w, x, y, h, now.l)
  {
    hide L.LinkInv, L.Next, L.Enabled, Sound, StepOf, CallLink, Faithful, Inv, Offers, Reports;
    match h {
      case AtExporter(_, _, _) => steps := ExporterStep(w, x, y, h, now);
      case AtImporter(_, _) => steps := ImporterStep(w, x, y, h, now);
      case Delivers =>
        steps := [L.Deliver];
        BytesMove(w.l, L.Deliver);
        MoveKeepsMachines(w.l, L.Deliver);
      case Moves(side, lane, count) =>
        steps := [L.Move(side, lane, count)];
        BytesMove(w.l, L.Move(side, lane, count));
        MoveKeepsMachines(w.l, L.Move(side, lane, count));
    }
  }

  ghost predicate WorldRun(worlds: seq<World>, x: nat, y: nat, happenings: seq<Happening>) {
    && |worlds| == |happenings| + 1
    && forall i :: 0 <= i < |happenings| ==> WorldStep(worlds[i], x, y, happenings[i], worlds[i + 1])
  }

  /** The items the exporting driver took, in order. */
  function TakenItems(worlds: seq<World>, x: nat, happenings: seq<Happening>, n: nat): seq<Item>
    requires n <= |happenings| < |worlds|
  {
    if n == 0 then []
    else
      TakenItems(worlds, x, happenings, n - 1)
      + if Takes(worlds[n - 1], x, happenings[n - 1]) then [happenings[n - 1].item] else []
  }

  /** How many admissions the importing driver was told of. */
  function Admissions(worlds: seq<World>, y: nat, happenings: seq<Happening>, n: nat): nat
    requires n <= |happenings| < |worlds|
  {
    if n == 0 then 0
    else Admissions(worlds, y, happenings, n - 1) + if Admits(worlds[n - 1], y, happenings[n - 1]) then 1 else 0
  }

  lemma {:induction false} WorldsDrive(worlds: seq<World>, x: nat, y: nat, happenings: seq<Happening>, n: nat)
    returns (steps: seq<L.LinkStep>)
    requires WorldRun(worlds, x, y, happenings) && Joined(worlds[0], x, y) && n <= |happenings|
    ensures Joined(worlds[n], x, y) && S.Run(worlds[0].l, steps) && S.Reached(worlds[0].l, steps) == worlds[n].l
    ensures worlds[n].l.log.provided == worlds[0].l.log.provided + TakenItems(worlds, x, happenings, n)
    ensures |worlds[n].l.log.admitted| == |worlds[0].l.log.admitted| + Admissions(worlds, y, happenings, n)
    decreases n
  {
    hide Joined, WorldStep, S.Run, S.Reached, Takes, Admits;
    if n == 0 {
      steps := [];
      EmptyRun(worlds[0].l);
    } else {
      var before := WorldsDrive(worlds, x, y, happenings, n - 1);
      assert WorldStep(worlds[n - 1], x, y, happenings[n - 1], worlds[n - 1 + 1]);
      var more := WorldDrives(worlds[n - 1], x, y, happenings[n - 1], worlds[n]);
      RunJoins(worlds[0].l, before, more);
      steps := before + more;
    }
  }

  lemma EmptyRun(l: L.Link)
    ensures S.Run(l, []) && S.Reached(l, []) == l
  {
  }

  /** Two drivers whose slots have just been attached to the two ends of a link. */
  ghost predicate Attaching(w: World, x: nat, y: nat, source: Contract, destination: Contract) {
    && Sound(w.a) && Sound(w.b) && x < |w.a.slots| && y < |w.b.slots|
    && w.a.slots[x].protocol == Some(Fresh(source, Direction.Export, w.a.bytes))
    && w.b.slots[y].protocol == Some(Fresh(destination, Direction.Import, w.b.bytes))
    && w.l == L.Start(source, destination, w.a.bytes, w.b.bytes)
  }

  lemma AttachingJoins(w: World, x: nat, y: nat, source: Contract, destination: Contract)
    requires Attaching(w, x, y, source, destination)
    ensures Joined(w, x, y) && ValidCapacity(w.a.bytes) && ValidCapacity(w.b.bytes)
    ensures w.l == L.Start(source, destination, w.a.bytes, w.b.bytes) && w.l.log == L.Log([], [], [], [])
  {
    hide L.LinkInv, AllSlots, KernelInv, Attended;
    L.StartHolds(source, destination, w.a.bytes, w.b.bytes);
  }

  /** Link safety of the drivers: over every run of both, with other links, passes, stops, drops
      and dispatches in between, what the importing loop admitted is a prefix of what the
      exporting loop had taken, at most one behind, and each accepted credit names its frame. */
  lemma DriversAreSafe(worlds: seq<World>, x: nat, y: nat, happenings: seq<Happening>, n: nat, source: Contract,
                       destination: Contract)
    requires WorldRun(worlds, x, y, happenings) && Attaching(worlds[0], x, y, source, destination) && n <= |happenings|
    ensures var log := worlds[n].l.log;
            && log.admitted <= log.delivered <= log.provided == TakenItems(worlds, x, happenings, n)
            && |log.admitted| == Admissions(worlds, y, happenings, n)
            && |log.credits| <= |log.admitted| && |log.provided| <= |log.credits| + 1
            && forall i :: 0 <= i < |log.credits| ==> log.credits[i] == log.admitted[i].sequence
  {
    hide Joined, WorldStep, Attaching, S.Run, S.Reached, TakenItems, Admissions, L.Start;
    AttachingJoins(worlds[0], x, y, source, destination);
    var steps := WorldsDrive(worlds, x, y, happenings, n);
    S.LinkSafety(source, destination, worlds[0].a.bytes, worlds[0].b.bytes, steps);
  }
}
