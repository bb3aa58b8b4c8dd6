/** Refinement with dropped loans: a loan dropped inside activation, an offer or an ordinary
    acquisition, with the slots as they were lent, only repeats the call. Without the calls
    that were dropped, such a run is a run of the recursive interpreter. */
module DriverRepetition {
  import opened Basics
  import opened Operations
  import opened DriverModel
  import opened DriverInvariant
  import opened DriverHistory
  import opened DriverTurns
  import opened DriverResumption
  import opened DriverRetirement
  import opened DriverReference
  import opened DriverRefinement

  /** A call that was dropped and left everything as it was lent. */
  predicate Untouched(e: Event) {
    Suspended(e) &&
    match e
    case ActivateCalled(environment, actions, activation, reply) =>
      reply.environment == environment && reply.actions == actions && reply.activation == activation
    case OfferCalled(_, _, lent, left, custody, _, _) => left == lent && custody.None?
    case EventRequested(control, _) => !control
    case _ => false
  }

  predicate Drops(d: DriverState, r: Round) {
    var events := Step(d, r).events;
    events != [] && Untouched(events[|events| - 1])
  }

  /** Every turn is answered by a conserving host or dropped without effect. */
  ghost predicate Patient(d: DriverState, rounds: seq<Round>)
    decreases |rounds|
  {
    rounds == [] ||
    ((Conserving(rounds[0]) || Drops(d, rounds[0])) && Patient(Step(d, rounds[0]).driver, rounds[1..]))
  }

  /** The calls that were not dropped. */
  function Undropped(events: seq<Event>): seq<Event> {
    if events == [] then [] else (if Suspended(events[0]) then [] else [events[0]]) + Undropped(events[1..])
  }

  /** The replies that reached the Driver: a dropped turn takes those of the turn that repeats
      it, apart from the status it has already read. */
  function Repeated(d: DriverState, rounds: seq<Round>): seq<Round>
    decreases |rounds|
  {
    if rounds == [] then []
    else if !Drops(d, rounds[0]) then [rounds[0]] + Repeated(Step(d, rounds[0]).driver, rounds[1..])
    else if |rounds| == 1 then []
    else Repeated(d, [rounds[1].(status := rounds[0].status)] + rounds[2..])
  }

  lemma {:induction false} UndroppedAppend(a: seq<Event>, b: seq<Event>)
    ensures Undropped(a + b) == Undropped(a) + Undropped(b)
  {
    if a == [] {
      assert a + b == b;
    } else {
      assert (a + b)[1..] == a[1..] + b;
      UndroppedAppend(a[1..], b);
    }
  }

  lemma {:induction false} UndroppedKeeps(events: seq<Event>)
    requires NoneSuspended(events)
    ensures Undropped(events) == events
  {
    if events != [] {
      UndroppedKeeps(events[1..]);
    }
  }

  // ------------------------------------------------------------ one repetition

  /** After a drop the next turn does what the dropped one would have done with its replies. */
  ghost predicate Repeats(d: DriverState, r: Round, next: Round) {
    var first := Step(d, r);
    var second := Step(first.driver, next);
    first.events != [] &&
    Step(d, next.(status := r.status)) == Progress(second.driver, first.events[..|first.events| - 1] + second.events)
  }

  /** A dropped offer leaves the row held. */
  lemma DroppedOffer(held: DriverState, r: Round)
    requires held.sourceIndex.Some? && held.sourceInput.Some? && held.sourceInput.value.turn == held.heldTurn
    requires Untouched(OfferHeld(held, r).events[0])
    ensures OfferHeld(held, r).driver == held
  {
  }

  lemma HeldIsOffered(held: DriverState, r: Round)
    requires Inv(held) && Running(held) && held.interpretation.None? && held.sourceIndex.Some?
    ensures Step(held, r) == OfferHeld(held, r)
  {
  }

  lemma FoldReadsNoStatus(d: DriverState, r: Round, status: StatusReply)
    ensures FoldIngress(d, r.(status := status)) == FoldIngress(d, r)
  {
  }

  lemma RequestReadsNoStatus(d: DriverState, r: Round, status: StatusReply)
    ensures AcquireControl(d, r.(status := status)) == AcquireControl(d, r)
    ensures AcquireOrdinary(d, r.(status := status)) == AcquireOrdinary(d, r)
  {
    FoldReadsNoStatus(d.(ingress := Receive(r.ingress, d.ingress).slot), r, status);
  }

  lemma SelectReadsNoStatus(d: DriverState, r: Round, status: StatusReply)
    ensures Select(d, r.(status := status)) == Select(d, r)
  {
    if d.sourceIndex.None? {
      match NextRow(d.settlements)
      case None => RequestReadsNoStatus(d, r, status);
      case Some(index) =>
        RequestReadsNoStatus(d.(settlements := Insert(Remove(d.settlements, index), index, Offer(d.settlements[index].settlement))), r, status);
    }
  }

  lemma ActivationRepeats(d: DriverState, r: Round, next: Round)
    requires Inv(d) && d.phase.Activating? && Drops(d, r)
    ensures Repeats(d, r, next)
  {
    assert Step(d, r).driver == d;
    assert Step(d, r).events[..0] + Step(d, next).events == Step(d, next).events;
  }

  /** The dropped call of a quiet turn. */
  lemma DroppedSelection(d: DriverState, r: Round)
    requires Quiet(d) && Drops(d, r)
    ensures |Step(d, r).events| == 1
    ensures match NextRow(d.settlements)
      case None => Step(d, r).driver == d
      case Some(index) => d.settlements[index].Offer? && Step(d, r).driver == Hold(d, index)
  {
    QuietStep(d, r);
    SelectShape(d, r);
    match NextRow(d.settlements)
    case None =>
      RequestIsFirst(d, r);
    case Some(index) =>
      if d.settlements[index].Offer? {
        DroppedOffer(Hold(d, index), r);
      } else {
        ControlIsTouched(d.(settlements := Insert(Remove(d.settlements, index), index, Offer(d.settlements[index].settlement))), r);
      }
  }

  lemma RequestIsFirst(d: DriverState, r: Round)
    requires Quiet(d) && NextRow(d.settlements).None?
    requires var events := Select(d, r).events; events != [] && Untouched(events[|events| - 1])
    ensures |Select(d, r).events| == 1 && Select(d, r).driver == d
  {
    FoldIsTouched(d.(ingress := Receive(r.ingress, None).slot), r);
  }

  lemma FoldIsTouched(d: DriverState, r: Round)
    requires d.active.Some?
    ensures forall i :: 0 <= i < |FoldIngress(d, r).events| ==> !Untouched(FoldIngress(d, r).events[i])
  {
    FoldIngressShape(d, r);
  }

  lemma ControlIsTouched(d: DriverState, r: Round)
    requires d.active.Some?
    ensures forall i :: 0 <= i < |AcquireControl(d, r).events| ==> !Untouched(AcquireControl(d, r).events[i])
  {
    AcquireShape(d, r);
  }

  lemma SelectionRepeats(d: DriverState, r: Round, next: Round)
    requires Quiet(d) && Drops(d, r)
    ensures Repeats(d, r, next)
  {
    DroppedSelection(d, r);
    SelectReadsNoStatus(d, next, r.status);
    if NextRow(d.settlements).Some? {
      StepKeepsInv(d, r);
      HeldIsOffered(Step(d, r).driver, next);
      QuietStep(d, next);
    }
    assert Step(d, r).events[..0] + Step(Step(d, r).driver, next).events == Step(d, next).events;
  }

  lemma ClassificationRepeats(d: DriverState, r: Round, next: Round)
    requires Inv(d) && Running(d) && d.interpretation.Some? && Drops(d, r)
    ensures Repeats(d, r, next)
  {
    ClassifyKeepsInv(d, r);
    var d1 := Classify(d, r).driver;
    if !d1.phase.Retiring? {
      ClassifyOffers(d, r);
      ClassifyOffers(d, next.(status := r.status));
      DroppedOffer(Hold(d1, 0), r);
      StepKeepsInv(d, r);
      HeldIsOffered(Hold(d1, 0), next);
    }
  }

  lemma DropRepeats(d: DriverState, r: Round, next: Round)
    requires Inv(d) && Calm(d) && Drops(d, r)
    ensures Repeats(d, r, next)
  {
    StepShape(d, r);
    if d.phase.Activating? {
      ActivationRepeats(d, r, next);
    } else if Running(d) {
      if d.interpretation.Some? {
        ClassificationRepeats(d, r, next);
      } else {
        SelectionRepeats(d, r, next);
      }
    }
  }

  /** What a dropped turn has done besides is no call. */
  lemma DropHasNoOps(d: DriverState, r: Round)
    requires Inv(d) && Calm(d) && Drops(d, r)
    ensures var events := Step(d, r).events;
      Undropped(events) == events[..|events| - 1] && Ops(Undropped(events)) == []
  {
    StepShape(d, r);
    var events := Step(d, r).events;
    UndroppedAppend(events[..|events| - 1], [events[|events| - 1]]);
    assert events == events[..|events| - 1] + [events[|events| - 1]];
    if |events| > 1 {
      DropRepeats(d, r, r);
      assert events[0].StatusRead? && |events| == 2;
    }
  }

  // ------------------------------------------------------------ whole runs

  lemma ConservingIsUninterrupted(r: Round)
    requires Conserving(r)
    ensures Uninterrupted(r)
  {
  }

  /** A repeated drop is a drop of the same call, and the rest is as patient as before. */
  lemma StillPatient(d: DriverState, rounds: seq<Round>)
    requires Inv(d) && Calm(d) && Patient(d, rounds) && |rounds| > 1 && Drops(d, rounds[0])
    ensures Patient(d, [rounds[1].(status := rounds[0].status)] + rounds[2..])
  {
    var r, next := rounds[0], rounds[1];
    var second := Step(Step(d, r).driver, next);
    DropRepeats(d, r, next);
    assert rounds[1..][0] == next && rounds[1..][1..] == rounds[2..];
    var merged := next.(status := r.status);
    assert Conserving(merged) || Drops(d, merged);
    assert ([merged] + rounds[2..])[1..] == rounds[2..];
  }

  /** Taking the repetition for the drop leaves the finished calls as they are. */
  lemma MergedCalls(d: DriverState, rounds: seq<Round>)
    requires Inv(d) && Calm(d) && |rounds| > 1 && Drops(d, rounds[0])
    ensures Undropped(Run(d, rounds).events) == Undropped(Run(d, [rounds[1].(status := rounds[0].status)] + rounds[2..]).events)
  {
    var r, next := rounds[0], rounds[1];
    var first := Step(d, r);
    var second := Step(first.driver, next);
    var rest := Run(second.driver, rounds[2..]).events;
    DropRepeats(d, r, next);
    DropHasNoOps(d, r);
    var before := first.events[..|first.events| - 1];
    RunOfTwo(d, rounds);
    UndroppedAppend(first.events, second.events + rest);
    UndroppedAppend(before, second.events + rest);
    DropIsLast(first.events);
    var merged := [next.(status := r.status)] + rounds[2..];
    assert merged[1..] == rounds[2..];
    assert Run(d, merged).events == before + second.events + rest;
    Reassociate(before, second.events, rest);
  }

  lemma RunOfTwo(d: DriverState, rounds: seq<Round>)
    requires |rounds| > 1
    ensures var first := Step(d, rounds[0]);
      var second := Step(first.driver, rounds[1]);
      Run(d, rounds).events == first.events + (second.events + Run(second.driver, rounds[2..]).events)
  {
    assert rounds[1..][0] == rounds[1] && rounds[1..][1..] == rounds[2..];
  }

  lemma DropIsLast(events: seq<Event>)
    requires events != [] && Suspended(events[|events| - 1]) && Undropped(events) == events[..|events| - 1]
    ensures Undropped(events[..|events| - 1]) == Undropped(events)
  {
    var before := events[..|events| - 1];
    UndroppedAppend(before, [events[|events| - 1]]);
    assert events == before + [events[|events| - 1]] && [events[|events| - 1]][1..] == [];
  }

  /** The replies that reached the Driver are those of a conserving host, and with them alone
      the loop makes the same calls, without those that were dropped. */
  lemma {:induction false} RepetitionErases(d: DriverState, rounds: seq<Round>)
    requires Inv(d) && Calm(d) && Patient(d, rounds)
    ensures AllConserving(Repeated(d, rounds))
    ensures Ops(Undropped(Run(d, rounds).events)) == Ops(Run(d, Repeated(d, rounds)).events)
    decreases |rounds|
  {
    if rounds != [] {
      if !Drops(d, rounds[0]) {
        FinishedTurn(d, rounds);
      } else if |rounds| == 1 {
        DropHasNoOps(d, rounds[0]);
        assert Run(Step(d, rounds[0]).driver, rounds[1..]).events == [];
        assert Step(d, rounds[0]).events + [] == Step(d, rounds[0]).events;
      } else {
        StillPatient(d, rounds);
        MergedCalls(d, rounds);
        RepetitionErases(d, [rounds[1].(status := rounds[0].status)] + rounds[2..]);
      }
    }
  }

  lemma {:induction false} FinishedTurn(d: DriverState, rounds: seq<Round>)
    requires Inv(d) && Calm(d) && Patient(d, rounds) && rounds != [] && !Drops(d, rounds[0])
    ensures AllConserving(Repeated(d, rounds))
    ensures Ops(Undropped(Run(d, rounds).events)) == Ops(Run(d, Repeated(d, rounds)).events)
    decreases |rounds|, 0
  {
    var first := Step(d, rounds[0]);
    var rest := Repeated(first.driver, rounds[1..]);
    ConservingIsUninterrupted(rounds[0]);
    StepIsNotSuspended(d, rounds[0]);
    StepKeepsInv(d, rounds[0]);
    StepStaysCalm(d, rounds[0]);
    RepetitionErases(first.driver, rounds[1..]);
    UndroppedKeeps(first.events);
    UndroppedAppend(first.events, Run(first.driver, rounds[1..]).events);
    OpsAppend(first.events, Undropped(Run(first.driver, rounds[1..]).events));
    assert ([rounds[0]] + rest)[1..] == rest;
    OpsAppend(first.events, Run(first.driver, rest).events);
  }

  /** With drops that leave their loans untouched, wherever and however often, the calls that
      were not dropped are exactly those of the recursive interpreter over the replies that
      reached the Driver. */
  lemma DroppedLoopRefinesInterpreter(behavior: Token, environment: Token, rounds: seq<Round>)
    requires Patient(New(behavior, environment), rounds)
    ensures var d := New(behavior, environment);
      && AllConserving(Repeated(d, rounds))
      && Ops(Undropped(Run(d, rounds).events)) == Execute(Repeated(d, rounds))
  {
    var d := New(behavior, environment);
    RepetitionErases(d, rounds);
    LoopRefinesInterpreter(behavior, environment, Repeated(d, rounds));
  }
}
