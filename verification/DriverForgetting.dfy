/** When decided actions are forgotten, read off the replies of a run: exactly when an event
    is decided after an `apply` was dropped with its actions still in their slot. */
module DriverForgetting {
  import opened Basics
  import opened Operations
  import opened DriverModel
  import opened DriverInvariant
  import opened DriverHistory
  import opened DriverConservation

  /** An `apply` whose loan was dropped with its actions still in their slot. */
  predicate LeavesActions(e: Event) {
    e.ApplyCalled? && e.applied.actions.Some? && Receive(e.applied.run, None).abandoned
  }

  ghost predicate SomeLeaves(events: seq<Event>) {
    exists i :: 0 <= i < |events| && LeavesActions(events[i])
  }

  /** A dropped `apply` left its actions, and a later event was decided. */
  ghost predicate Overtaken(events: seq<Event>) {
    exists i, j :: 0 <= i < j < |events| && LeavesActions(events[i]) && DecidesEvent(events[j])
  }

  lemma OvertakenSplit(a: seq<Event>, b: seq<Event>)
    ensures Overtaken(a + b) <==> Overtaken(a) || Overtaken(b) || (SomeLeaves(a) && Decides(b))
    ensures Decides(a + b) <==> Decides(a) || Decides(b)
  {
    var all := a + b;
    forall i | 0 <= i < |b| ensures all[|a| + i] == b[i] {
    }
    forall i | 0 <= i < |a| ensures all[i] == a[i] {
    }
    if i, j :| 0 <= i < j < |all| && LeavesActions(all[i]) && DecidesEvent(all[j]) {
      if i >= |a| {
        assert LeavesActions(b[i - |a|]) && DecidesEvent(b[j - |a|]);
      } else if j >= |a| {
        assert LeavesActions(a[i]) && DecidesEvent(b[j - |a|]);
      } else {
        assert LeavesActions(a[i]) && DecidesEvent(a[j]);
      }
    }
    if i, j :| 0 <= i < j < |b| && LeavesActions(b[i]) && DecidesEvent(b[j]) {
      assert LeavesActions(all[|a| + i]) && DecidesEvent(all[|a| + j]);
    }
    if i, j :| 0 <= i < |a| && 0 <= j < |b| && LeavesActions(a[i]) && DecidesEvent(b[j]) {
      assert LeavesActions(all[i]) && DecidesEvent(all[|a| + j]);
    }
    if j :| 0 <= j < |b| && DecidesEvent(b[j]) {
      assert DecidesEvent(all[|a| + j]);
    }
  }

  predicate Waiting(d: DriverState) {
    Running(d) && d.actions.Some?
  }

  lemma FoldWaits(d: DriverState, r: Round)
    requires Running(d) && d.active.Some?
    ensures var p := FoldIngress(d, r);
      && (Running(p.driver) ==> |p.events| == 2 && p.driver.actions == r.apply.actions)
      && (|p.events| == 2 ==> (LeavesActions(p.events[1]) <==> Waiting(p.driver)))
  {
  }

  lemma AcquireWaits(d: DriverState, control: bool, r: Round)
    requires Running(d) && d.active.Some? && d.ingress.None?
    ensures var p := if control then AcquireControl(d, r) else AcquireOrdinary(d, r);
      && (|p.events| < 3 && Running(p.driver) ==> p.driver.actions == d.actions)
      && (|p.events| == 3 ==> (LeavesActions(p.events[2]) <==> Waiting(p.driver)))
  {
    FoldWaits(d.(ingress := Receive(r.ingress, None).slot), r);
    AcquireShape(d, r);
  }

  lemma SelectWaits(d: DriverState, r: Round)
    requires Inv(d) && Running(d) && !d.phase.Initializing? && d.interpretation.None?
    ensures var p := Select(d, r);
      && (|p.events| < 3 && Running(p.driver) ==> p.driver.actions == d.actions)
      && (|p.events| == 3 ==> (LeavesActions(p.events[2]) <==> Waiting(p.driver)))
  {
    SelectShape(d, r);
    if d.sourceIndex.Some? {
      OfferTouchesNoActions(d, r);
    } else {
      match NextRow(d.settlements)
      case None => AcquireWaits(d, false, r);
      case Some(index) =>
        OfferTouchesNoActions(Hold(d, index), r);
        AcquireWaits(d.(settlements := Insert(Remove(d.settlements, index), index, Offer(d.settlements[index].settlement))), true, r);
    }
  }

  lemma TurnWaits(d: DriverState, r: Round)
    requires Inv(d) && Running(d)
    ensures var p := Turn(d, r);
      && (|p.events| < 3 && Running(p.driver) ==> p.driver.actions == d.actions)
      && (|p.events| == 3 && d.interpretation.None? ==> (LeavesActions(p.events[2]) <==> Waiting(p.driver)))
  {
    if d.interpretation.Some? {
      ClassifyKeepsInv(d, r);
      var d1 := Classify(d, r).driver;
      if !d1.phase.Retiring? {
        SelectWaits(d1, r);
        ClassifyOffers(d, r);
      }
    } else {
      SelectWaits(d, r);
    }
  }

  /** Only a turn of three calls decides, and only its last call can leave actions. */
  lemma ShapeOfDeciding(d: DriverState, events: seq<Event>)
    requires TurnShape(d, events) && !Terminal(d)
    ensures Decides(events) <==> |events| == 3
    ensures |events| == 3 ==> Running(d) && d.interpretation.None?
    ensures SomeLeaves(events) <==> |events| == 3 && LeavesActions(events[2])
    ensures !Overtaken(events)
  {
  }

  /** What one turn does to waiting actions, in terms of its calls. */
  lemma StepWaits(d: DriverState, r: Round)
    requires Inv(d) && !Terminal(d)
    ensures var p := Step(d, r);
      && !Overtaken(p.events) && (Decides(p.events) ==> Running(d))
      && (SomeLeaves(p.events) ==> Waiting(p.driver) && Decides(p.events))
      && (Waiting(p.driver) ==> SomeLeaves(p.events) || (Waiting(d) && !Decides(p.events)))
      && (Waiting(d) && Running(p.driver) && !Decides(p.events) ==> Waiting(p.driver))
  {
    StepShape(d, r);
    ShapeOfDeciding(d, Step(d, r).events);
    if Running(d) {
      TurnWaits(d, r);
    } else {
      NotYetWaiting(d, r);
    }
  }

  lemma NotYetWaiting(d: DriverState, r: Round)
    requires Inv(d) && (d.phase.Prepared? || d.phase.Activating?)
    ensures !Waiting(Step(d, r).driver)
  {
  }

  lemma TerminalNeverDecides(d: DriverState, rounds: seq<Round>)
    requires Inv(d) && Terminal(d)
    ensures NeverForgets(d, rounds) && !Decides(Run(d, rounds).events) && !Overtaken(Run(d, rounds).events)
  {
    RunEndsAtCause(d, rounds);
    TerminalForgetsNothing(d, rounds);
  }

  lemma {:induction false} TerminalForgetsNothing(d: DriverState, rounds: seq<Round>)
    requires Inv(d) && Terminal(d)
    ensures NeverForgets(d, rounds)
    decreases |rounds|
  {
    if rounds != [] {
      StepShape(d, rounds[0]);
      StepPhase(d, rounds[0]);
      StepKeepsInv(d, rounds[0]);
      TerminalForgetsNothing(Step(d, rounds[0]).driver, rounds[1..]);
    }
  }

  /** The first turn of a run, and what it leaves for the others. */
  lemma FirstWaits(d: DriverState, rounds: seq<Round>) returns (next: DriverState, events: seq<Event>)
    requires Inv(d) && !Terminal(d) && rounds != []
    ensures Inv(next) && Run(d, rounds).events == events + Run(next, rounds[1..]).events
    ensures NeverForgets(d, rounds) <==> !(Waiting(d) && Decides(events)) && NeverForgets(next, rounds[1..])
    ensures !Overtaken(events) && (SomeLeaves(events) ==> Waiting(next))
    ensures Waiting(next) ==> SomeLeaves(events) || Waiting(d)
    ensures Waiting(d) ==> Decides(events) || Waiting(next) || Terminal(next)
  {
    next, events := Step(d, rounds[0]).driver, Step(d, rounds[0]).events;
    StepWaits(d, rounds[0]);
    StepKeepsInv(d, rounds[0]);
    StepPhase(d, rounds[0]);
  }

  /** Exact, on the replies alone: actions are forgotten if and only if some `apply` was
      dropped with its actions in their slot and a later event was decided. */
  lemma {:induction false} ForgetsIffOvertaken(d: DriverState, rounds: seq<Round>)
    requires Inv(d)
    ensures NeverForgets(d, rounds) <==>
      !Overtaken(Run(d, rounds).events) && !(Waiting(d) && Decides(Run(d, rounds).events))
    decreases |rounds|
  {
    if Terminal(d) {
      TerminalNeverDecides(d, rounds);
    } else if rounds != [] {
      var next, events := FirstWaits(d, rounds);
      var rest := Run(next, rounds[1..]).events;
      ForgetsIffOvertaken(next, rounds[1..]);
      OvertakenSplit(events, rest);
      if Terminal(next) {
        TerminalNeverDecides(next, rounds[1..]);
      }
    }
  }

  /** From a new Driver, everything is conserved if and only if no event is decided after a
      dropped `apply` left its actions. */
  lemma ConservesIffNotOvertaken(behavior: Token, environment: Token, rounds: seq<Round>)
    ensures (forall t: Token :: Balanced(New(behavior, environment), Run(New(behavior, environment), rounds), t, 0))
      <==> !Overtaken(Run(New(behavior, environment), rounds).events)
  {
    RunConservesIff(New(behavior, environment), rounds);
    ForgetsIffOvertaken(New(behavior, environment), rounds);
  }
}
