/** The gates on publication and ordinary events, the relation between successive calls, and
    for uninterrupted runs the number of offers and the end of the loop. */
module DriverTurns {
  import opened Basics
  import opened Counting
  import opened Operations
  import opened DriverModel
  import opened DriverInvariant
  import opened DriverHistory

  /** Between the turns of an uninterrupted run no row is held out of the queue, no action
      value waits, and a decision waits exactly with its interpretation. */
  ghost predicate Calm(d: DriverState) {
    Running(d) ==>
      d.actions.None? && d.sourceIndex.None? && (d.decision.Some? <==> d.interpretation.Some?)
  }

  ghost predicate AllUninterrupted(rounds: seq<Round>) {
    forall i :: 0 <= i < |rounds| ==> Uninterrupted(rounds[i])
  }

  lemma OfferStaysCalm(d: DriverState, r: Round)
    requires Uninterrupted(r) && d.sourceIndex.Some? && d.actions.None? && d.decision.None? && d.interpretation.None?
    requires d.sourceReceived.None?
    ensures Calm(OfferHeld(d, r).driver)
  {
  }

  lemma FoldIngressStaysCalm(d: DriverState, r: Round)
    requires Uninterrupted(r) && Running(d) && d.active.Some?
    requires d.actions.None? && d.decision.None? && d.interpretation.None? && d.sourceIndex.None?
    ensures Calm(FoldIngress(d, r).driver)
  {
  }

  lemma SelectStaysCalm(d: DriverState, r: Round)
    requires Inv(d) && Running(d) && !d.phase.Initializing? && d.interpretation.None? && Calm(d) && Uninterrupted(r)
    ensures Calm(Select(d, r).driver)
  {
    match NextRow(d.settlements)
    case None => FoldIngressStaysCalm(d.(ingress := Receive(r.ingress, d.ingress).slot), r);
    case Some(index) =>
      if d.settlements[index].Offer? {
        OfferStaysCalm(Hold(d, index), r);
      } else {
        var d1 := d.(settlements := Insert(Remove(d.settlements, index), index, Offer(d.settlements[index].settlement)));
        FoldIngressStaysCalm(d1.(ingress := Receive(r.ingress, d1.ingress).slot), r);
      }
  }

  lemma StepStaysCalm(d: DriverState, r: Round)
    requires Inv(d) && Calm(d) && Uninterrupted(r)
    ensures Calm(Step(d, r).driver)
  {
    if Running(d) {
      if d.interpretation.Some? {
        ClassifyKeepsInv(d, r);
        var d1 := Classify(d, r).driver;
        if !d1.phase.Retiring? {
          SelectStaysCalm(d1, r);
        }
      } else {
        SelectStaysCalm(d, r);
      }
    }
  }

  // ------------------------------------------------------------------ gating

  lemma SelectGated(d: DriverState, r: Round)
    requires d.active.Some? && (d.phase.SettlingInitialization? || d.phase.Active?)
    ensures Select(d, r).events != [] && (Select(d, r).events[0].PublishCalled? || IsOrdinary(Select(d, r).events[0])) ==>
      d.sourceIndex.None? && NextRow(d.settlements).None?
  {
    if NextRow(d.settlements).Some? {
      var index := NextRow(d.settlements).value;
      AcquireShape(d.(settlements := Insert(Remove(d.settlements, index), index, Offer(d.settlements[index].settlement))), r);
    }
  }

  /** Publication and ordinary acquisition wait until every settlement received so far is
      discharged or retained, and ordinary acquisition waits for publication. */
  lemma GatedCalls(d: DriverState, r: Round, i: nat)
    requires Inv(d) && i < |Step(d, r).events|
    requires var e := Step(d, r).events[i]; e.PublishCalled? || (e.EventRequested? && !e.control)
    ensures i == 0 && AllRetained(d.settlements)
    ensures d.interpretation.None? && d.sourceIndex.None? && d.sourceInput.None? && d.sourceReceived.None?
    ensures Calm(d) ==> d.actions.None? && d.decision.None?
    ensures if Step(d, r).events[i].PublishCalled? then d.phase.SettlingInitialization? else d.phase.Active?
  {
    StepShape(d, r);
    GateShape(d, Step(d, r).events, i);
    SelectGated(d, r);
  }

  lemma GateShape(d: DriverState, events: seq<Event>, i: nat)
    requires TurnShape(d, events) && i < |events| && (events[i].PublishCalled? || IsOrdinary(events[i]))
    ensures Running(d) && d.interpretation.None? && i == 0
    ensures if events[i].PublishCalled? then d.phase.SettlingInitialization? else d.phase.Active?
  {
  }

  predicate IsOrdinary(e: Event) {
    e.EventRequested? && !e.control
  }

  /** Every ordinary acquisition has a successful publication before it. */
  ghost predicate PublishedFirst(events: seq<Event>) {
    forall i :: 0 <= i < |events| && IsOrdinary(events[i]) ==> PublishCalled(Published) in events[..i]
  }

  lemma PublishedFirstAppend(a: seq<Event>, b: seq<Event>)
    requires forall i :: 0 <= i < |a| ==> !IsOrdinary(a[i])
    requires PublishCalled(Published) in a || PublishedFirst(b)
    ensures PublishedFirst(a + b)
  {
    forall i | 0 <= i < |a + b| && IsOrdinary((a + b)[i])
      ensures PublishCalled(Published) in (a + b)[..i]
    {
      assert (a + b)[..i] == a + b[..i - |a|];
    }
  }

  lemma StepBeforePublication(d: DriverState, r: Round)
    requires Inv(d) && !d.phase.Active?
    ensures var p := Step(d, r);
      && (forall i :: 0 <= i < |p.events| ==> !IsOrdinary(p.events[i]))
      && (p.driver.phase.Active? ==> PublishCalled(Published) in p.events)
  {
    StepShape(d, r);
    ShapeBeforePublication(d, Step(d, r).events);
    StepPhase(d, r);
  }

  lemma ShapeBeforePublication(d: DriverState, events: seq<Event>)
    requires TurnShape(d, events) && !d.phase.Active?
    ensures forall i :: 0 <= i < |events| ==> !IsOrdinary(events[i])
  {
  }

  lemma {:induction false} RunPublishesFirst(d: DriverState, rounds: seq<Round>)
    requires Inv(d) && !d.phase.Active?
    ensures PublishedFirst(Run(d, rounds).events)
    decreases |rounds|
  {
    if rounds != [] {
      var first := Step(d, rounds[0]);
      var rest := Run(first.driver, rounds[1..]);
      StepBeforePublication(d, rounds[0]);
      StepKeepsInv(d, rounds[0]);
      if !first.driver.phase.Active? {
        RunPublishesFirst(first.driver, rounds[1..]);
      }
      PublishedFirstAppend(first.events, rest.events);
    }
  }

  // ------------------------------------------------------------ causal order

  predicate Admits(e: Event) {
    e.OfferCalled? && e.custody.Some? && e.custody.value.SourceAdmitted?
  }

  /** What may directly follow what. Each decision is applied before anything else, each
      applied decision is classified and offered before anything else, and an admitted
      offer is followed by the acquisition of its control event. */
  predicate MayFollow(a: Event, b: Event) {
    IsRetirement(b) ||
    match a
    case Initialized(_) => b.ActivateCalled?
    case ActivateCalled(_, _, _, _) => b.StatusRead?
    case StatusRead(_, _, _) => b.OfferCalled?
    case OfferCalled(_, _, _, _, _, _, _) =>
      if Admits(a) then b.EventRequested? && b.control
      else b.OfferCalled? || b.PublishCalled? || IsOrdinary(b)
    case EventRequested(_, _) => b.Folded?
    case Folded(_, _) => b.ApplyCalled?
    case PublishCalled(_) => IsOrdinary(b)
    case ApplyCalled(_, _, _) => b.StatusRead?
    case PreparedRetireCalled(_, _, _) => false
    case ActiveRetireCalled(_, _, _, _, _, _, _, _) => false
  }

  ghost predicate CausallyOrdered(events: seq<Event>) {
    forall i :: 0 <= i < |events| - 1 ==> MayFollow(events[i], events[i + 1])
  }

  lemma NextAfter(before: seq<SettlementTurn>, row: SettlementTurn, after: seq<SettlementTurn>)
    requires AllRetained(before) && !row.Retained?
    ensures NextRow(before + [row] + after) == Some(|before|)
  {
    var rows := before + [row] + after;
    assert rows[|before|] == row;
  }

  // -------------------------------------------------- offers and termination

  function OfferRows(rows: seq<SettlementTurn>): nat {
    if rows == [] then 0 else One(rows[0].Offer?) + OfferRows(rows[1..])
  }

  lemma {:induction false} OfferRowsSplit(a: seq<SettlementTurn>, b: seq<SettlementTurn>)
    ensures OfferRows(a + b) == OfferRows(a) + OfferRows(b)
  {
    if a == [] {
      assert a + b == b;
    } else {
      assert (a + b)[1..] == a[1..] + b;
      OfferRowsSplit(a[1..], b);
    }
  }

  lemma OfferRowsInsert(rows: seq<SettlementTurn>, index: nat, row: SettlementTurn)
    ensures OfferRows(Insert(rows, index, row)) == OfferRows(rows) + One(row.Offer?)
  {
    var i := if index <= |rows| then index else |rows|;
    assert Insert(rows, index, row) == rows[..i] + ([row] + rows[i..]);
    assert rows == rows[..i] + rows[i..];
    OfferRowsSplit(rows[..i], rows[i..]);
    OfferRowsSplit(rows[..i], [row] + rows[i..]);
    assert ([row] + rows[i..])[1..] == rows[i..];
  }

  lemma OfferRowsRemove(rows: seq<SettlementTurn>, index: nat)
    requires index < |rows|
    ensures OfferRows(rows) == OfferRows(Remove(rows, index)) + One(rows[index].Offer?)
  {
    var before, after := rows[..index], rows[index + 1..];
    assert rows == before + ([rows[index]] + after);
    OfferRowsSplit(before, [rows[index]] + after);
    OfferRowsSplit(before, after);
    assert ([rows[index]] + after)[1..] == after;
  }

  /** Offers that may still be made without another fold. */
  function OffersLeft(d: DriverState): nat {
    if d.phase.Prepared? || d.phase.Activating? then 1
    else if Running(d) then OfferRows(d.settlements) + One(d.interpretation.Some?)
    else 0
  }

  /** Turns that may still be taken without another fold. */
  function TurnsLeft(d: DriverState): nat {
    match d.phase
    case Prepared => 5
    case Activating => 4
    case Initializing => OffersLeft(d) + 2
    case SettlingInitialization => OffersLeft(d) + 2
    case Active => OffersLeft(d) + 1
    case Retiring => 0
    case RetirementAttempted => 0
  }

  ghost predicate Paid(d: DriverState, p: Progress) {
    && Count(p.events, isOffer) + OffersLeft(p.driver) <= OffersLeft(d) + 2 * Count(p.events, isFold)
    && (!Terminal(d) ==> 1 + TurnsLeft(p.driver) <= TurnsLeft(d) + 3 * Count(p.events, isFold))
  }

  /** A reply that does not end the execution puts back no row that can be offered again. */
  lemma OfferAddsNoOffers(d: DriverState, r: Round)
    requires d.sourceIndex.Some? && d.sourceReceived.None? && Uninterrupted(r)
    ensures var e := OfferHeld(d, r).driver;
      Terminal(e) ||
        (OfferRows(e.settlements) == OfferRows(d.settlements) && e.interpretation == d.interpretation && e.phase == d.phase)
  {
    if r.offer.received.Some? {
      var row := Custody(r.offer.received.value.settlement, d.heldTurn);
      OfferRowsInsert(d.settlements, d.sourceIndex.value, Retained(row));
      OfferRowsInsert(d.settlements, d.sourceIndex.value, AwaitSource(row));
    }
  }

  lemma OfferIsPaid(d: DriverState, index: nat, r: Round)
    requires Inv(d) && Calm(d) && Running(d) && !d.phase.Initializing? && d.interpretation.None? && Uninterrupted(r)
    requires NextRow(d.settlements) == Some(index) && d.settlements[index].Offer?
    ensures Paid(d, OfferHeld(Hold(d, index), r))
  {
    var held := Hold(d, index);
    OfferRowsRemove(d.settlements, index);
    OfferAddsNoOffers(held, r);
    CountShort(OfferHeld(held, r).events, isOffer);
    CountShort(OfferHeld(held, r).events, isFold);
  }

  lemma FoldIngressAdvances(d: DriverState, r: Round)
    requires d.active.Some? && Uninterrupted(r)
    ensures var p := FoldIngress(d, r);
      Terminal(p.driver) || (|p.events| == 2 && p.driver.phase == d.phase && p.driver.settlements == d.settlements)
  {
  }

  lemma RequestAdvances(d: DriverState, control: bool, r: Round)
    requires d.active.Some? && d.ingress.None? && Uninterrupted(r)
    ensures var p := if control then AcquireControl(d, r) else AcquireOrdinary(d, r);
      && RequestShape(p.events)
      && (Terminal(p.driver) || (|p.events| == 3 && p.driver.phase == d.phase && p.driver.settlements == d.settlements))
  {
    AcquireShape(d, r);
    FoldIngressAdvances(d.(ingress := Receive(r.ingress, d.ingress).slot), r);
  }

  lemma RequestIsPaid(d: DriverState, control: bool, r: Round)
    requires d.active.Some? && d.ingress.None? && Uninterrupted(r) && Running(d)
    ensures var p := if control then AcquireControl(d, r) else AcquireOrdinary(d, r);
      RequestPaid(p, OfferRows(d.settlements), d.phase.Active?)
  {
    RequestAdvances(d, control, r);
    var p := if control then AcquireControl(d, r) else AcquireOrdinary(d, r);
    CountShort(p.events, isOffer);
    CountShort(p.events, isFold);
  }

  /** The bounds that a request leaves, with `rows` offers waiting when it is made. */
  ghost predicate RequestPaid(p: Progress, rows: nat, active: bool) {
    && Count(p.events, isOffer) == 0
    && (Terminal(p.driver) ||
        (Count(p.events, isFold) == 1 && OffersLeft(p.driver) <= rows + 1 && TurnsLeft(p.driver) <= rows + if active then 2 else 3))
  }

  lemma RequestPays(d: DriverState, p: Progress, rows: nat)
    requires Running(d) && !d.phase.Initializing? && rows <= OfferRows(d.settlements) + 1
    requires RequestPaid(p, rows, d.phase.Active?)
    ensures Paid(d, p)
  {
  }

  lemma ControlIsPaid(d: DriverState, index: nat, r: Round)
    requires Inv(d) && Calm(d) && Running(d) && !d.phase.Initializing? && d.interpretation.None? && Uninterrupted(r)
    requires NextRow(d.settlements) == Some(index) && d.settlements[index].AwaitSource?
    ensures Paid(d, SelectRow(d, index, r))
  {
    var row := Offer(d.settlements[index].settlement);
    OfferRowsRemove(d.settlements, index);
    OfferRowsInsert(Remove(d.settlements, index), index, row);
    var d1 := d.(settlements := Insert(Remove(d.settlements, index), index, row));
    RequestIsPaid(d1, true, r);
    RequestPays(d, AcquireControl(d1, r), OfferRows(d1.settlements));
  }

  lemma PublishIsPaid(d: DriverState, r: Round)
    requires d.phase.SettlingInitialization? && d.interpretation.None?
    ensures Paid(d, Publish(d, r))
  {
    CountShort(Publish(d, r).events, isOffer);
    CountShort(Publish(d, r).events, isFold);
  }

  lemma SelectIsPaid(d: DriverState, r: Round)
    requires Inv(d) && Calm(d) && Running(d) && !d.phase.Initializing? && d.interpretation.None? && Uninterrupted(r)
    ensures Paid(d, Select(d, r))
  {
    match NextRow(d.settlements)
    case None =>
      if d.phase.SettlingInitialization? {
        PublishIsPaid(d, r);
      } else {
        RequestIsPaid(d, false, r);
        RequestPays(d, AcquireOrdinary(d, r), OfferRows(d.settlements));
      }
    case Some(index) =>
      if d.settlements[index].Offer? {
        OfferIsPaid(d, index, r);
      } else {
        ControlIsPaid(d, index, r);
      }
  }

  lemma ClassifyIsPaid(d: DriverState, r: Round)
    requires Inv(d) && Calm(d) && Running(d) && d.interpretation.Some? && Uninterrupted(r)
    ensures Paid(d, Turn(d, r))
  {
    var classified := Classify(d, r);
    ClassifyKeepsInv(d, r);
    CountShort(classified.events, isOffer);
    CountShort(classified.events, isFold);
    var d1 := classified.driver;
    if !d1.phase.Retiring? {
      assert d1.settlements[1..] == d.settlements;
      SelectIsPaid(d1, r);
      CountAppend(classified.events, Select(d1, r).events, isOffer);
      CountAppend(classified.events, Select(d1, r).events, isFold);
    }
  }

  lemma StepIsPaid(d: DriverState, r: Round)
    requires Inv(d) && Calm(d) && Uninterrupted(r)
    ensures Paid(d, Step(d, r))
  {
    if Running(d) {
      if d.interpretation.Some? {
        ClassifyIsPaid(d, r);
      } else {
        SelectIsPaid(d, r);
      }
    } else {
      StepShape(d, r);
      StepPhase(d, r);
      StepKeepsInv(d, r);
      CountShort(Step(d, r).events, isOffer);
    }
  }

  lemma RunUnfolds(d: DriverState, rounds: seq<Round>, p: Event -> bool)
    requires rounds != []
    ensures Run(d, rounds).driver == Run(Step(d, rounds[0]).driver, rounds[1..]).driver
    ensures Count(Run(d, rounds).events, p)
         == Count(Step(d, rounds[0]).events, p) + Count(Run(Step(d, rounds[0]).driver, rounds[1..]).events, p)
  {
    CountAppend(Step(d, rounds[0]).events, Run(Step(d, rounds[0]).driver, rounds[1..]).events, p);
  }

  lemma TurnIsPaid(d: DriverState, r: Round) returns (next: DriverState, events: seq<Event>)
    requires Inv(d) && Calm(d) && Uninterrupted(r)
    ensures Progress(next, events) == Step(d, r) && Inv(next) && Calm(next) && Paid(d, Progress(next, events))
    ensures Terminal(d) ==> Terminal(next)
  {
    StepIsPaid(d, r);
    StepKeepsInv(d, r);
    StepStaysCalm(d, r);
    StepPhase(d, r);
    next, events := Step(d, r).driver, Step(d, r).events;
  }

  /** The first turn of a run, with what it spends and what is left for the others. */
  lemma FirstIsPaid(d: DriverState, rounds: seq<Round>) returns (next: DriverState, offers: nat, folds: nat)
    requires Inv(d) && Calm(d) && AllUninterrupted(rounds) && rounds != []
    ensures Inv(next) && Calm(next)
    ensures Run(d, rounds).driver == Run(next, rounds[1..]).driver
    ensures Count(Run(d, rounds).events, isOffer) == offers + Count(Run(next, rounds[1..]).events, isOffer)
    ensures Count(Run(d, rounds).events, isFold) == folds + Count(Run(next, rounds[1..]).events, isFold)
    ensures offers + OffersLeft(next) <= OffersLeft(d) + 2 * folds
    ensures Terminal(next) || 1 + TurnsLeft(next) <= TurnsLeft(d) + 3 * folds
    ensures Terminal(next) ==> Terminal(Run(next, rounds[1..]).driver)
  {
    var events;
    next, events := TurnIsPaid(d, rounds[0]);
    offers, folds := Count(events, isOffer), Count(events, isFold);
    RunUnfolds(d, rounds, isOffer);
    RunUnfolds(d, rounds, isFold);
    if Terminal(next) {
      RunStaysTerminal(next, rounds[1..]);
    }
  }

  lemma {:induction false} RunIsPaid(d: DriverState, rounds: seq<Round>)
    requires Inv(d) && Calm(d) && AllUninterrupted(rounds)
    ensures var p := Run(d, rounds);
      && Count(p.events, isOffer) + OffersLeft(p.driver) <= OffersLeft(d) + 2 * Count(p.events, isFold)
      && (!Terminal(p.driver) ==> |rounds| + TurnsLeft(p.driver) <= TurnsLeft(d) + 3 * Count(p.events, isFold))
    decreases |rounds|
  {
    if rounds != [] {
      var next, offers, folds := FirstIsPaid(d, rounds);
      RunIsPaid(next, rounds[1..]);
    }
  }

  lemma {:induction false} RunStaysTerminal(d: DriverState, rounds: seq<Round>)
    requires Inv(d) && Terminal(d)
    ensures Terminal(Run(d, rounds).driver)
    decreases |rounds|
  {
    if rounds != [] {
      StepPhase(d, rounds[0]);
      StepKeepsInv(d, rounds[0]);
      RunStaysTerminal(Step(d, rounds[0]).driver, rounds[1..]);
    }
  }

  /** With F folds, an uninterrupted run makes at most 2F + 1 offers, and it is in its
      retirement phase after at most 3F + 5 turns. */
  lemma OffersAndTurnsAreBounded(behavior: Token, environment: Token, rounds: seq<Round>)
    requires AllUninterrupted(rounds)
    ensures var p := Run(New(behavior, environment), rounds);
      && Count(p.events, isOffer) <= 2 * Count(p.events, isFold) + 1
      && (|rounds| > 3 * Count(p.events, isFold) + 4 ==> Terminal(p.driver))
  {
    RunIsPaid(New(behavior, environment), rounds);
    RunKeepsInv(New(behavior, environment), rounds);
  }
}
