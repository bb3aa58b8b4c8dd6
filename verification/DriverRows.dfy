/** What becomes of the rows, for any host and any dropped loan: a settlement that the source
    keeps or has used up is never offered again, and the newest row goes first. */
module DriverRows {
  import opened Basics
  import opened Operations
  import opened DriverModel
  import opened DriverInvariant
  import opened DriverHistory
  import opened DriverRetirement

  /** The settlement received in `turn` is discharged or retained for good: no row that can
      be offered, and no held one, has its stamp. */
  ghost predicate Settled(d: DriverState, turn: nat) {
    && turn < d.received
    && (d.sourceIndex.Some? ==> d.heldTurn != turn)
    && forall i :: 0 <= i < |d.settlements| && d.settlements[i].settlement.turn == turn ==> d.settlements[i].Retained?
  }

  /** The offer of `turn` is over with a row that the source keeps, or with none left. */
  predicate Settles(e: Event, turn: nat) {
    && e.OfferCalled? && e.turn == turn && !e.ran.abandoned && e.left.None? && e.custody.Some?
    && (e.custody.value.SourceRetained? || e.custody.value.SourceExhausted?)
  }

  predicate OffersTurn(e: Event, turn: nat) {
    e.OfferCalled? && e.turn == turn
  }

  lemma InsertStaysSettled(rows: seq<SettlementTurn>, index: nat, row: SettlementTurn, turn: nat)
    requires forall i :: 0 <= i < |rows| && rows[i].settlement.turn == turn ==> rows[i].Retained?
    requires row.settlement.turn == turn ==> row.Retained?
    ensures var all := Insert(rows, index, row);
      forall i :: 0 <= i < |all| && all[i].settlement.turn == turn ==> all[i].Retained?
  {
  }

  /** One offer of another row keeps it settled, and its own may settle it. */
  lemma OfferSettles(d: DriverState, r: Round, turn: nat)
    requires Inv(d) && Running(d) && d.interpretation.None? && d.sourceIndex.Some?
    requires turn < d.received && (d.heldTurn != turn ==> Settled(d, turn))
    ensures var p := OfferHeld(d, r);
      && |p.events| == 1 && p.events[0].OfferCalled? && p.events[0].turn == d.heldTurn
      && (d.heldTurn != turn || Settles(p.events[0], turn) ==> Settled(p.driver, turn))
  {
    var d1 := if d.sourceReceived.Some? then d else
      d.(sourceInput := if r.offer.input.Some? then Some(Custody(r.offer.input.value, d.heldTurn)) else None,
         sourceReceived := r.offer.received);
    if d1.sourceReceived.Some? {
      var row := Custody(d1.sourceReceived.value.settlement, d.heldTurn);
      HeldIsAlone(d, turn);
      InsertStaysSettled(d.settlements, d.sourceIndex.value, Retained(row), turn);
      if d.heldTurn != turn {
        InsertStaysSettled(d.settlements, d.sourceIndex.value, AwaitSource(row), turn);
        InsertStaysSettled(d.settlements, d.sourceIndex.value, Offer(row), turn);
      }
    }
  }

  /** Stamps are distinct, so no row in the queue has the stamp of the held one. */
  lemma HeldIsAlone(d: DriverState, turn: nat)
    requires Inv(d) && Running(d) && d.sourceIndex.Some? && (d.heldTurn != turn ==> Settled(d, turn))
    ensures forall i :: 0 <= i < |d.settlements| && d.settlements[i].settlement.turn == turn ==> d.settlements[i].Retained?
  {
  }

  /** The queue and the held row are as they were. */
  predicate SameRows(d: DriverState, e: DriverState) {
    e.received == d.received && e.sourceIndex == d.sourceIndex && e.heldTurn == d.heldTurn && e.settlements == d.settlements
  }

  lemma FoldKeepsRows(d: DriverState, r: Round)
    ensures SameRows(d, FoldIngress(d, r).driver)
  {
  }

  lemma AcquireKeepsRows(d: DriverState, r: Round)
    ensures SameRows(d, AcquireControl(d, r).driver) && SameRows(d, AcquireOrdinary(d, r).driver)
  {
    FoldKeepsRows(d.(ingress := Receive(r.ingress, d.ingress).slot), r);
  }

  lemma SelectStaysSettled(d: DriverState, r: Round, turn: nat)
    requires Inv(d) && Running(d) && !d.phase.Initializing? && d.interpretation.None? && Settled(d, turn)
    ensures Settled(Select(d, r).driver, turn)
    ensures forall i :: 0 <= i < |Select(d, r).events| ==> !OffersTurn(Select(d, r).events[i], turn)
  {
    SelectShape(d, r);
    if d.sourceIndex.Some? {
      OfferSettles(d, r, turn);
    } else {
      match NextRow(d.settlements)
      case None => AcquireKeepsRows(d, r);
      case Some(index) => SelectRowStaysSettled(d, index, r, turn);
    }
  }

  lemma RemoveStaysSettled(rows: seq<SettlementTurn>, index: nat, turn: nat)
    requires index < |rows| && forall i :: 0 <= i < |rows| && rows[i].settlement.turn == turn ==> rows[i].Retained?
    ensures var rest := Remove(rows, index);
      forall i :: 0 <= i < |rest| && rest[i].settlement.turn == turn ==> rest[i].Retained?
  {
    var rest := Remove(rows, index);
    forall i | 0 <= i < |rest| ensures rest[i] == rows[if i < index then i else i + 1] {
    }
  }

  lemma OfferNextStaysSettled(d: DriverState, index: nat, r: Round, turn: nat)
    requires Inv(d) && Running(d) && !d.phase.Initializing? && d.interpretation.None? && d.sourceIndex.None? && Settled(d, turn)
    requires NextRow(d.settlements) == Some(index) && d.settlements[index].Offer?
    ensures var p := OfferHeld(Hold(d, index), r);
      Settled(p.driver, turn) && |p.events| == 1 && !OffersTurn(p.events[0], turn)
  {
    RemoveKeepsOrder(d.settlements, index, d.received);
    RemoveStaysSettled(d.settlements, index, turn);
    OfferSettles(Hold(d, index), r, turn);
  }

  lemma AwaitStaysSettled(d: DriverState, index: nat, r: Round, turn: nat)
    requires Inv(d) && Running(d) && d.sourceIndex.None? && Settled(d, turn)
    requires NextRow(d.settlements) == Some(index) && d.settlements[index].AwaitSource?
    ensures var p := SelectRow(d, index, r);
      Settled(p.driver, turn) && forall i :: 0 <= i < |p.events| ==> !p.events[i].OfferCalled?
  {
    var row := Offer(d.settlements[index].settlement);
    RemoveStaysSettled(d.settlements, index, turn);
    InsertStaysSettled(Remove(d.settlements, index), index, row, turn);
    var d1 := d.(settlements := Insert(Remove(d.settlements, index), index, row));
    AcquireKeepsRows(d1, r);
    AcquireShape(d1, r);
  }

  lemma SelectRowStaysSettled(d: DriverState, index: nat, r: Round, turn: nat)
    requires Inv(d) && Running(d) && !d.phase.Initializing? && d.interpretation.None? && d.sourceIndex.None? && Settled(d, turn)
    requires NextRow(d.settlements) == Some(index)
    ensures var p := SelectRow(d, index, r);
      Settled(p.driver, turn) && forall i :: 0 <= i < |p.events| ==> !OffersTurn(p.events[i], turn)
  {
    if d.settlements[index].Offer? {
      OfferNextStaysSettled(d, index, r, turn);
    } else {
      AwaitStaysSettled(d, index, r, turn);
    }
  }

  lemma EnqueueStaysSettled(d: DriverState, r: Round, turn: nat)
    requires d.interpretation.Some? && Settled(d, turn)
    ensures Settled(Classify(d, r).driver, turn)
  {
  }

  lemma RetireStaysSettled(d: DriverState, r: Round, turn: nat)
    requires Inv(d) && d.phase.Retiring? && Settled(d, turn)
    ensures Retire(d, r).events == [] ==> Retire(d, r).driver == d
    ensures Retire(d, r).events != [] ==> Retire(d, r).driver.phase.RetirementAttempted?
  {
    if !Stranded(d) {
      GatherEmpties(d);
    }
  }

  lemma StepStaysSettled(d: DriverState, r: Round, turn: nat)
    requires Inv(d) && (Settled(d, turn) || d.phase.RetirementAttempted?)
    ensures Settled(Step(d, r).driver, turn) || Step(d, r).driver.phase.RetirementAttempted?
    ensures forall i :: 0 <= i < |Step(d, r).events| ==> !OffersTurn(Step(d, r).events[i], turn)
  {
    StepShape(d, r);
    if Running(d) {
      if d.interpretation.Some? {
        ClassifyKeepsInv(d, r);
        EnqueueStaysSettled(d, r, turn);
        if !Classify(d, r).driver.phase.Retiring? {
          SelectStaysSettled(Classify(d, r).driver, r, turn);
        }
      } else {
        SelectStaysSettled(d, r, turn);
      }
    } else if d.phase.Retiring? {
      RetireStaysSettled(d, r, turn);
    } else if !d.phase.RetirementAttempted? {
      assert d.received == Step(d, r).driver.received;
    }
  }

  lemma {:induction false} RunStaysSettled(d: DriverState, rounds: seq<Round>, turn: nat, i: nat)
    requires Inv(d) && (Settled(d, turn) || d.phase.RetirementAttempted?) && i < |Run(d, rounds).events|
    ensures !OffersTurn(Run(d, rounds).events[i], turn)
    decreases |rounds|
  {
    var first := Step(d, rounds[0]);
    StepStaysSettled(d, rounds[0], turn);
    StepKeepsInv(d, rounds[0]);
    if i >= |first.events| {
      RunStaysSettled(first.driver, rounds[1..], turn, i - |first.events|);
    }
  }

  // ------------------------------------------------------------- never offered again

  lemma SelectSettles(d: DriverState, r: Round, turn: nat)
    requires Inv(d) && Running(d) && !d.phase.Initializing? && d.interpretation.None?
    requires var events := Select(d, r).events; events != [] && Settles(events[0], turn)
    ensures Settled(Select(d, r).driver, turn)
  {
    SelectShape(d, r);
    if d.sourceIndex.Some? {
      OfferSettles(d, r, turn);
    } else {
      match NextRow(d.settlements)
      case None => AcquireShape(d, r);
      case Some(index) =>
        RemoveKeepsOrder(d.settlements, index, d.received);
        if d.settlements[index].Offer? {
          OfferSettles(Hold(d, index), r, turn);
        } else {
          AcquireShape(d.(settlements := Insert(Remove(d.settlements, index), index, Offer(d.settlements[index].settlement))), r);
        }
    }
  }

  lemma StepSettles(d: DriverState, r: Round, i: nat, turn: nat)
    requires Inv(d) && i < |Step(d, r).events| && Settles(Step(d, r).events[i], turn)
    ensures i == |Step(d, r).events| - 1 && Settled(Step(d, r).driver, turn)
  {
    StepShape(d, r);
    if Running(d) {
      if d.interpretation.Some? {
        ClassifyKeepsInv(d, r);
        assert !Classify(d, r).driver.phase.Retiring?;
        SelectSettles(Classify(d, r).driver, r, turn);
      } else {
        SelectSettles(d, r, turn);
      }
    }
  }

  /** A settlement that the source retained or exhausted is never offered again, over any
      number of receives and dropped loans. */
  lemma {:induction false} SettledIsNeverReoffered(d: DriverState, rounds: seq<Round>, i: nat, j: nat, turn: nat)
    requires Inv(d) && i < j < |Run(d, rounds).events| && Settles(Run(d, rounds).events[i], turn)
    ensures !OffersTurn(Run(d, rounds).events[j], turn)
    decreases |rounds|
  {
    var first := Step(d, rounds[0]);
    StepKeepsInv(d, rounds[0]);
    if i < |first.events| {
      StepSettles(d, rounds[0], i, turn);
      RunStaysSettled(first.driver, rounds[1..], turn, j - |first.events|);
    } else {
      SettledIsNeverReoffered(first.driver, rounds[1..], i - |first.events|, j - |first.events|, turn);
    }
  }

  // ------------------------------------------------------------------- newest first

  /** No row that can still progress is newer. */
  ghost predicate Newest(rows: seq<SettlementTurn>, turn: nat) {
    forall i :: 0 <= i < |rows| && !rows[i].Retained? ==> rows[i].settlement.turn <= turn
  }

  lemma NextIsNewest(d: DriverState, r: Round)
    requires Inv(d) && Running(d) && !d.phase.Initializing? && d.interpretation.None?
    requires Select(d, r).events != [] && Select(d, r).events[0].OfferCalled?
    ensures Newest(d.settlements, Select(d, r).events[0].turn)
  {
    SelectShape(d, r);
    if d.sourceIndex.None? {
      match NextRow(d.settlements)
      case None => AcquireShape(d, r);
      case Some(index) =>
        AcquireShape(d.(settlements := Insert(Remove(d.settlements, index), index, Offer(d.settlements[index].settlement))), r);
    }
  }

  lemma OlderAreOlder(row: SettlementTurn, rows: seq<SettlementTurn>, turn: nat)
    requires Newest([row] + rows, turn)
    ensures Newest(rows, turn)
  {
    forall i | 0 <= i < |rows| ensures rows[i] == ([row] + rows)[i + 1] {
    }
  }

  lemma ClassifiedIsNewest(d: DriverState, r: Round)
    requires Inv(d) && Running(d) && d.interpretation.Some? && !Classify(d, r).driver.phase.Retiring?
    requires var d1 := Classify(d, r).driver; Select(d1, r).events != [] && Select(d1, r).events[0].OfferCalled?
    ensures Newest(d.settlements, Select(Classify(d, r).driver, r).events[0].turn)
  {
    ClassifyKeepsInv(d, r);
    var d1 := Classify(d, r).driver;
    NextIsNewest(d1, r);
    OlderAreOlder(Offer(Custody(d.interpretation.value, d.received)), d.settlements, Select(d1, r).events[0].turn);
  }

  /** Every offer is of the newest settlement that can still progress. */
  lemma NewestIsOffered(d: DriverState, r: Round, i: nat)
    requires Inv(d) && i < |Step(d, r).events| && Step(d, r).events[i].OfferCalled?
    ensures Newest(d.settlements, Step(d, r).events[i].turn)
  {
    StepShape(d, r);
    if Running(d) {
      if d.interpretation.Some? {
        assert !Classify(d, r).driver.phase.Retiring?;
        ClassifiedIsNewest(d, r);
      } else {
        NextIsNewest(d, r);
      }
    }
  }
}
