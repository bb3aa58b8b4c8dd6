/** Loans dropped while an operation is pending: the two places where resuming the
    surviving Driver does not continue the interrupted turn. */
module DriverInterruptions {
  import opened Basics
  import opened Operations
  import opened DriverModel
  import opened DriverInvariant
  import opened DriverHistory
  import opened DriverTurns
  import opened DriverConservation
  import opened DriverRetirement

  const finished: Operation<()> := Constructed(0, Ready(()), None)
  const dropped: Operation<()> := Constructed(0, Abandoned, None)

  /** A round of a well-behaved host whose source is exhausted and whose event is `event`. */
  function Plain(event: Token, actions: Token, settlement: Token): Round {
    Round(Decided(actions, Continue),
          ActivateReply(None, None, Some(Established(100, settlement)), finished),
          Classified(AcceptedStatus),
          OfferReply(None, Some(SourceExhausted(settlement)), finished),
          None,
          Constructed(0, Ready(Proceed(Some(event))), None),
          Published,
          ApplyReply(None, Some(settlement), finished),
          PreparedRetireReply(None, None, Some(200), finished),
          ActiveRetireReply(None, None, None, None, None, None, None, Some(200), finished))
  }

  /** The Driver after initialization, activation, the first offer and publication. */
  function Serving(): DriverState {
    DriverState(1, None, Some(100), Active, None, None, None, None, None, None, None, None, [], None, None, None, [], 1, 0)
  }

  lemma ReachActivating(r: Round)
    requires r == Plain(0, 3, 4)
    ensures Step(New(1, 2), r).driver == New(1, 2).(phase := Activating, actions := Some(3), decision := Some(Continue))
  {
  }

  lemma ReachInitializing(r: Round)
    requires r == Plain(0, 3, 4)
    ensures Step(New(1, 2).(phase := Activating, actions := Some(3), decision := Some(Continue)), r).driver
         == Serving().(phase := Initializing, interpretation := Some(4), decision := Some(Continue), received := 0)
  {
  }

  lemma ReachSettling(r: Round)
    requires r == Plain(0, 3, 4)
    ensures Step(Serving().(phase := Initializing, interpretation := Some(4), decision := Some(Continue), received := 0), r).driver
         == Serving().(phase := SettlingInitialization)
  {
    var d := Serving().(phase := Initializing, interpretation := Some(4), decision := Some(Continue), received := 0);
    var c := Serving().(phase := SettlingInitialization, settlements := [Offer(Custody(4, 0))]);
    assert Classify(d, r).driver == c;
    assert NextRow(c.settlements) == Some(0);
    assert Remove(c.settlements, 0) == [];
    assert Select(c, r).driver == Serving().(phase := SettlingInitialization);
  }

  lemma ReachServing(r: Round)
    requires r == Plain(0, 3, 4)
    ensures Step(Serving().(phase := SettlingInitialization), r).driver == Serving()
  {
  }

  lemma RunOnce(d: DriverState, r: Round, rest: seq<Round>)
    ensures Run(d, [r] + rest).driver == Run(Step(d, r).driver, rest).driver
  {
    assert ([r] + rest)[1..] == rest;
  }

  lemma ServingIsReached(r: Round)
    requires r == Plain(0, 3, 4)
    ensures Run(New(1, 2), [r, r, r, r]).driver == Serving() && Inv(Serving())
  {
    ReachActivating(r);
    ReachInitializing(r);
    ReachSettling(r);
    ReachServing(r);
    RunOnce(New(1, 2), r, [r, r, r]);
    RunOnce(Step(New(1, 2), r).driver, r, [r, r]);
    RunOnce(Serving().(phase := Initializing, interpretation := Some(4), decision := Some(Continue), received := 0), r, [r]);
    RunOnce(Serving().(phase := SettlingInitialization), r, []);
    assert [r] + [r, r, r] == [r, r, r, r] && [r] + [r, r] == [r, r, r] && [r] + [r] == [r, r] && [r] + [] == [r];
    RunKeepsInv(New(1, 2), [r, r, r, r]);
  }

  lemma DroppedApply(r: Round)
    requires r == Plain(6, 5, 0).(apply := ApplyReply(Some(5), None, dropped))
    ensures Step(Serving(), r).driver == Serving().(actions := Some(5), decision := Some(Continue))
  {
  }

  lemma ResumedApply(r: Round)
    requires r == Plain(8, 7, 9)
    ensures Step(Serving().(actions := Some(5), decision := Some(Continue)), r)
         == Progress(Serving().(interpretation := Some(9), decision := Some(Continue)),
                     [EventRequested(false, Receipt(Some(Proceed(Some(8))), [], false)), Folded(8, Decided(7, Continue)),
                      ApplyCalled(7, None, r.apply)])
  {
  }

  lemma InterruptedIsReached() returns (rounds: seq<Round>)
    ensures Run(New(1, 2), rounds).driver == Serving().(actions := Some(5), decision := Some(Continue))
  {
    var r, interrupted := Plain(0, 3, 4), Plain(6, 5, 0).(apply := ApplyReply(Some(5), None, dropped));
    rounds := [r, r, r, r] + [interrupted];
    ServingIsReached(r);
    DroppedApply(interrupted);
    RunSplits(New(1, 2), [r, r, r, r], [interrupted]);
    RunOnce(Serving(), interrupted, []);
    assert [interrupted] + [] == [interrupted];
  }

  lemma {:induction false} RunSplits(d: DriverState, a: seq<Round>, b: seq<Round>)
    ensures Run(d, a + b).driver == Run(Run(d, a).driver, b).driver
    decreases |a|
  {
    if a == [] {
      assert a + b == b;
    } else {
      assert (a + b)[1..] == a[1..] + b;
      RunSplits(Step(d, a[0]).driver, a[1..], b);
    }
  }

  ghost predicate Bare(d: DriverState) {
    && d.environment.None? && d.activation.None? && d.residual.None? && d.ingress.None? && d.sourceInput.None?
    && d.sourceReceived.None? && d.settlements == [] && d.retirementInput.None? && d.disposition.None? && d.additionalFailures == []
  }

  lemma HeldParts(d: DriverState, t: Token)
    requires Bare(d)
    ensures Held(d, t) == InSlot(d.active, t) + InSlot(d.actions, t) + InSlot(d.interpretation, t)
  {
    assert Custodies(d.settlements) == [];
  }

  ghost predicate WaitsWithActions(d: DriverState, t: Token) {
    Bare(d) && d.active == Some(100) && d.actions == Some(t) && d.interpretation.None? && t == 5
  }

  ghost predicate DecidedOver(p: Progress) {
    && Bare(p.driver) && p.driver.active == Some(100) && p.driver.actions.None? && p.driver.interpretation == Some(9)
    && |p.events| > 1 && p.events[1].Folded? && p.events[1].reply.Decided?
  }

  lemma ResumedFacts(d: DriverState, t: Token) returns (resumed: Round)
    requires d == Serving().(actions := Some(5), decision := Some(Continue)) && t == 5
    ensures WaitsWithActions(d, t) && DecidedOver(Step(d, resumed))
  {
    resumed := Plain(8, 7, 9);
    ResumedApply(resumed);
  }

  lemma ActionsAreLost(d: DriverState, p: Progress, t: Token)
    requires WaitsWithActions(d, t) && DecidedOver(p)
    ensures d.actions == Some(t) && Decides(p.events) && Held(d, t) == 1 && Held(p.driver, t) == 0
  {
    HeldParts(d, t);
    HeldParts(p.driver, t);
  }

  /** Dropping the loan inside `apply` and receiving the Driver again acquires and decides
      another event, and the waiting action value is lost. */
  lemma DroppedApplyLosesActions() returns (rounds: seq<Round>, resumed: Round, t: Token)
    ensures var d := Run(New(1, 2), rounds).driver;
      && ForgetsActions(d, resumed)
      && Held(d, t) == 1 && Held(Step(d, resumed).driver, t) == 0 && Balanced(d, Step(d, resumed), t, 1)
  {
    rounds := InterruptedIsReached();
    t := 5;
    var d := Run(New(1, 2), rounds).driver;
    RunKeepsInv(New(1, 2), rounds);
    resumed := ResumedFacts(d, t);
    ActionsAreLost(d, Step(d, resumed), t);
    StepBalances(d, resumed, t);
  }

  /** A decision that waits is classified by the next turn exactly when its interpretation
      was acquired; otherwise the next turn goes on to offers, publication or events. */
  lemma DecisionIsResumedIff(d: DriverState, r: Round)
    requires Inv(d) && Running(d) && d.decision.Some?
    ensures Step(d, r).events != [] && (Step(d, r).events[0].StatusRead? <==> d.interpretation.Some?)
  {
    StepShape(d, r);
  }

  /** The next row is an admitted one, whose control event is still to be acquired. */
  ghost predicate Awaits(d: DriverState, i: nat) {
    && Inv(d) && Running(d) && d.interpretation.None? && d.sourceIndex.None?
    && NextRow(d.settlements) == Some(i) && d.settlements[i].AwaitSource?
  }

  lemma AwaitingTurn(d: DriverState, i: nat, r: Round)
    requires Awaits(d, i)
    ensures var row := Offer(d.settlements[i].settlement);
      Step(d, r) == AcquireControl(d.(settlements := Insert(Remove(d.settlements, i), i, row)), r)
  {
  }

  /** One offer of the row with this stamp and token, and nothing else. */
  predicate Reoffers(events: seq<Event>, row: Custody) {
    |events| == 1 && events[0].OfferCalled? && events[0].called && events[0].turn == row.turn && events[0].lent == Some(row.token)
  }

  lemma NextIsFirstOffer(d: DriverState, i: nat)
    requires Awaits(d, i)
    ensures var rows := Insert(Remove(d.settlements, i), i, Offer(d.settlements[i].settlement));
      NextRow(rows) == Some(i) && rows[i] == Offer(d.settlements[i].settlement)
  {
    var row := Offer(d.settlements[i].settlement);
    var before, after := d.settlements[..i], d.settlements[i + 1..];
    assert Remove(d.settlements, i)[..i] == before && Remove(d.settlements, i)[i..] == after;
    NextAfter(before, row, after);
  }

  /** An admitted row is answered by its control event, or by the panics that prevent it,
      exactly when the loan is not dropped during that wait. If it is dropped, every resumed
      turn offers the same row again, although its control event was never acquired. */
  lemma DroppedControlReoffersIff(d: DriverState, i: nat, r: Round, resumed: Round)
    requires Awaits(d, i)
    ensures var got := Receive(r.ingress, None);
      var events := Step(d, r).events;
      && events != [] && events[0] == EventRequested(true, got)
      && (events == [EventRequested(true, Receipt(None, [], true))] <==> got.abandoned)
      && (!got.abandoned <==> got.slot.Some? || got.failures != [])
      && (got.abandoned ==> Reoffers(Step(Step(d, r).driver, resumed).events, d.settlements[i].settlement))
      && (got.abandoned ==> !MayFollow(events[0], Step(Step(d, r).driver, resumed).events[0]))
  {
    AwaitingTurn(d, i, r);
    NextIsFirstOffer(d, i);
  }

  lemma AdmittedOffer(r: Round)
    requires r == Plain(0, 3, 4).(offer := OfferReply(None, Some(SourceAdmitted(4)), finished))
    ensures var d := Serving().(phase := Initializing, interpretation := Some(4), decision := Some(Continue), received := 0);
      Step(d, r).driver == Serving().(phase := SettlingInitialization, settlements := [AwaitSource(Custody(4, 0))])
  {
    var d := Serving().(phase := Initializing, interpretation := Some(4), decision := Some(Continue), received := 0);
    var c := Serving().(phase := SettlingInitialization, settlements := [Offer(Custody(4, 0))]);
    assert Classify(d, r).driver == c;
    assert NextRow(c.settlements) == Some(0);
    assert Remove(c.settlements, 0) == [];
    assert Insert([], 0, AwaitSource(Custody(4, 0))) == [AwaitSource(Custody(4, 0))];
  }

  /** Such a state is reached: from there, any round that drops the wait reoffers the row. */
  lemma DroppedControlIsReached() returns (rounds: seq<Round>)
    ensures Awaits(Run(New(1, 2), rounds).driver, 0)
  {
    var r, admitted := Plain(0, 3, 4), Plain(0, 3, 4).(offer := OfferReply(None, Some(SourceAdmitted(4)), finished));
    rounds := [r] + ([r] + ([admitted] + []));
    ReachActivating(r);
    ReachInitializing(r);
    AdmittedOffer(admitted);
    RunOnce(New(1, 2), r, [r] + ([admitted] + []));
    RunOnce(Step(New(1, 2), r).driver, r, [admitted] + []);
    RunOnce(Serving().(phase := Initializing, interpretation := Some(4), decision := Some(Continue), received := 0), admitted, []);
    RunKeepsInv(New(1, 2), rounds);
  }

  // ------------------------------------------------------------ a stranded row

  lemma {:induction false} StrandedForever(d: DriverState, rest: seq<Round>)
    requires d.phase.Retiring? && Stranded(d)
    ensures Run(d, rest) == Progress(d, [])
    decreases |rest|
  {
    if rest != [] {
      StrandedForever(d, rest[1..]);
    }
  }

  lemma StrandingOffer(r: Round)
    requires r == Plain(0, 3, 4).(offer := OfferReply(Some(4), Some(SourceRetained(4)), ConstructorPanics(9)))
    ensures var d := Serving().(phase := Initializing, interpretation := Some(4), decision := Some(Continue), received := 0);
      var e := Step(d, r).driver;
      e.phase.Retiring? && Stranded(e) && e.active == Some(100) && e.disposition == Some(Failed(HostExecutionPanicked(9)))
  {
    var d := Serving().(phase := Initializing, interpretation := Some(4), decision := Some(Continue), received := 0);
    var c := Serving().(phase := SettlingInitialization, settlements := [Offer(Custody(4, 0))]);
    assert Classify(d, r).driver == c;
    assert NextRow(c.settlements) == Some(0);
    var e := OfferHeld(Hold(c, 0), r).driver;
    assert Select(c, r).driver == e;
    assert HostPanics([9]) == [HostExecutionPanicked(9)];
  }

  /** A host panic does not always retire the active owner: a host that panics and leaves
      both its input and its reply strands the row, and then no retirement is ever called,
      however often the surviving Driver is received again. */
  lemma StrandedIsNeverRetired() returns (rounds: seq<Round>)
    ensures var d := Run(New(1, 2), rounds).driver;
      && d.disposition == Some(Failed(HostExecutionPanicked(9))) && d.active == Some(100) && Stranded(d)
      && forall rest :: Run(d, rest) == Progress(d, [])
  {
    var r, bad := Plain(0, 3, 4), Plain(0, 3, 4).(offer := OfferReply(Some(4), Some(SourceRetained(4)), ConstructorPanics(9)));
    rounds := [r] + ([r] + ([bad] + []));
    ReachActivating(r);
    ReachInitializing(r);
    StrandingOffer(bad);
    RunOnce(New(1, 2), r, [r] + ([bad] + []));
    RunOnce(Step(New(1, 2), r).driver, r, [bad] + []);
    RunOnce(Serving().(phase := Initializing, interpretation := Some(4), decision := Some(Continue), received := 0), bad, []);
    var d := Run(New(1, 2), rounds).driver;
    forall rest ensures Run(d, rest) == Progress(d, []) {
      StrandedForever(d, rest);
    }
  }
}
