/** Receiving one reply from a disposable producer (`receive_operation`). */
module Operations {
  import opened Basics

  /** How the polls of one future end. `Abandoned` is a future dropped while pending. */
  datatype PollEnd<+T> = Ready(reply: T) | PollPanics(payload: Token) | Abandoned

  /** Everything one host operation can do: panic while it is constructed, or be polled
      some number of times, end, and possibly panic again while it is disposed. */
  datatype Operation<+T> =
    | ConstructorPanics(construction: Token)
    | Constructed(pendingPolls: nat, end: PollEnd<T>, disposal: Option<Token>)

  /** The receiving slot and the caught payloads once the operation is over. An
      abandoned receipt means that the borrowing loan itself was dropped. */
  datatype Receipt<+T> = Receipt(slot: Option<T>, failures: seq<Token>, abandoned: bool)

  function Receive<T>(operation: Operation<T>, slot: Option<T>): (r: Receipt<T>)
    ensures slot.Some? ==> r == Receipt(slot, [], false)
    ensures slot.None? && !r.abandoned ==> r.slot.Some? || r.failures != []
    ensures r.abandoned ==> slot.None? && r.slot.None? && r.failures == []
    ensures |r.failures| <= 2
  {
    if slot.Some? then Receipt(slot, [], false)
    else match operation
      case ConstructorPanics(payload) => Receipt(None, [payload], false)
      case Constructed(_, end, disposal) =>
        var disposed := if disposal.Some? then [disposal.value] else [];
        match end
        case Ready(reply) => Receipt(Some(reply), disposed, false)
        case PollPanics(payload) => Receipt(None, [payload] + disposed, false)
        case Abandoned => Receipt(None, [], true)
  }

  /** What is done to the producer, in order. */
  datatype ProducerAction = Construct | Poll | Dispose

  /** The producer is constructed first and at most once, disposed last and at most once,
      and everything in between is a poll. */
  ghost predicate Disciplined(actions: seq<ProducerAction>) {
    forall i :: 0 <= i < |actions| ==>
      && (actions[i].Construct? <==> i == 0)
      && (actions[i].Dispose? ==> i == |actions| - 1)
  }

  function PollCount<T>(operation: Operation<T>): nat {
    match operation
    case ConstructorPanics(_) => 0
    case Constructed(pendings, end, _) => pendings + if end.Abandoned? then 0 else 1
  }

  /** The producer's whole life: constructed, polled until it is done, disposed. */
  function ProducerLog<T>(operation: Operation<T>): seq<ProducerAction> {
    if operation.ConstructorPanics? then [Construct]
    else [Construct] + Polls(PollCount(operation)) + [Dispose]
  }

  function Polls(count: nat): seq<ProducerAction> {
    seq(count, _ => Poll)
  }

  lemma LogIsDisciplined<T>(operation: Operation<T>)
    ensures Disciplined(ProducerLog(operation))
    ensures Dispose in ProducerLog(operation) <==> !operation.ConstructorPanics?
  {
    var log := ProducerLog(operation);
    assert !operation.ConstructorPanics? ==> log[|log| - 1] == Dispose;
  }

  method ReceiveOperation<T>(operation: Operation<T>, received: Option<T>)
    returns (slot: Option<T>, failures: seq<Token>, abandoned: bool, actions: seq<ProducerAction>)
    ensures Receipt(slot, failures, abandoned) == Receive(operation, received)
    ensures actions == if received.Some? then [] else ProducerLog(operation)
  {
    slot, failures, abandoned, actions := received, [], false, [];
    if received.Some? {
      return;
    }
    actions := [Construct];
    if operation.ConstructorPanics? {
      failures := [operation.construction];
      return;
    }
    var polled := 0;
    while polled < operation.pendingPolls
      invariant 0 <= polled <= operation.pendingPolls
      invariant actions == [Construct] + Polls(polled)
    {
      actions := actions + [Poll];
      polled := polled + 1;
    }
    match operation.end {
      case Ready(reply) =>
        actions := actions + [Poll];
        slot := Some(reply);
      case PollPanics(payload) =>
        actions := actions + [Poll];
        failures := [payload];
      case Abandoned =>
        abandoned := true;
    }
    assert actions == [Construct] + Polls(PollCount(operation));
    actions := actions + [Dispose];
    if !abandoned && operation.disposal.Some? {
      failures := failures + [operation.disposal.value];
    }
  }
}
