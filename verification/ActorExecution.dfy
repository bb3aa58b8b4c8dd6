/** One execution above the Driver: a future that owns the Driver and a terminal retirement
    capability, which a guard fires on completion, cancellation and unwinding. */
module ActorExecution {
  import opened Basics
  import opened DriverModel
  import opened DriverInvariant
  import opened DriverRetirement
  import opened DriverResumption
  import opened ActorOutcome
  import O = DriverObject

  /** Where the future stands. The guard exists from the first poll on. */
  datatype Standing =
    | Unpolled(driver: DriverState)
    | Suspended(driver: DriverState)
    | Parked(driver: DriverState)
    | Ended

  /** What the Driver's own run answers to one poll. */
  datatype Answer = Pending(driver: DriverState) | Returned(driver: DriverState) | Unwound

  /** The Driver goes as far as the replies that have arrived take it. */
  function AnswerOf(driver: DriverState, rounds: seq<Round>): Answer {
    var end := O.EndOf(driver, rounds);
    var reached := Run(driver, rounds[..end.used]).driver;
    if end.returned then Returned(reached) else Pending(reached)
  }

  /** A poll is pending only when its replies are used up or a loan was dropped. */
  lemma {:induction false} PendingWaits(driver: DriverState, rounds: seq<Round>)
    requires Inv(driver) && AnswerOf(driver, rounds).Pending?
    ensures var used := O.EndOf(driver, rounds).used;
      used == |rounds| || exists i :: 0 <= i < used && !Uninterrupted(rounds[i])
    decreases |rounds|
  {
    if rounds != [] && !driver.phase.Retiring? && !O.Suspends(Step(driver, rounds[0]).events) {
      StepKeepsInv(driver, rounds[0]);
      PendingWaits(Step(driver, rounds[0]).driver, rounds[1..]);
      var used := O.EndOf(driver, rounds).used;
      if used != |rounds| {
        var i :| 0 <= i < used - 1 && !Uninterrupted(rounds[1..][i]);
        assert !Uninterrupted(rounds[i + 1]);
      }
    } else if rounds != [] && Uninterrupted(rounds[0]) {
      StepIsNotSuspended(driver, rounds[0]);
    }
  }

  datatype Act = Poll(answer: Answer) | DropFuture(panicking: bool)

  datatype Effect = DriverGone | Fired(outcome: ActorOutcome)

  datatype Turn = Turn(standing: Standing, effects: seq<Effect>)

  /** What the future owns. Before the first poll it is the captured Driver and a capability
      without a guard; from then on the guard, and after it the Driver. */
  datatype Local = DriverLocal | BareCapability | GuardLocal | SpentGuard

  function DropOne(local: Local, outcome: ActorOutcome): seq<Effect> {
    match local
    case DriverLocal => [DriverGone]
    case BareCapability => []
    case GuardLocal => [Fired(outcome)]
    case SpentGuard => []
  }

  /** Locals go in the reverse order of their declaration. */
  function DropInReverse(locals: seq<Local>, outcome: ActorOutcome): seq<Effect> {
    if locals == [] then []
    else DropOne(locals[|locals| - 1], outcome) + DropInReverse(locals[..|locals| - 1], outcome)
  }

  function Locals(s: Standing): seq<Local> {
    match s
    case Unpolled(_) => [BareCapability, DriverLocal]
    case Ended => []
    case _ => Started()
  }

  function Started(): seq<Local> {
    [GuardLocal, DriverLocal]
  }

  function Next(s: Standing, act: Act): Turn {
    match act
    case Poll(answer) =>
      if s.Parked? || s.Ended? then Turn(s, [])
      else (match answer
        case Pending(d) => Turn(Suspended(d), [])
        case Returned(d) =>
          // The Driver has been taken apart into the retirement that the guard is given.
          if Vacated(d) then
            Turn(Ended, [DriverGone, Fired(FromRetirement(Reply(d)))] + DropInReverse([SpentGuard], Cancelled))
          else Turn(Parked(d), [])
        case Unwound => Turn(Ended, DropInReverse(Started(), Panicked)))
    case DropFuture(panicking) => Turn(Ended, DropInReverse(Locals(s), if panicking then Panicked else Cancelled))
  }

  /** A local declared before the Driver is dropped after it. */
  lemma GuardOutlivesDriver(outcome: ActorOutcome)
    ensures DropInReverse(Started(), outcome) == [DriverGone, Fired(outcome)]
    ensures DropInReverse([BareCapability, DriverLocal], outcome) == [DriverGone]
    ensures DropInReverse([SpentGuard], outcome) == []
  {
    assert Started()[..1] == [GuardLocal] && [GuardLocal][..0] == [] && [SpentGuard][..0] == [];
    assert DropInReverse([GuardLocal], outcome) == [Fired(outcome)];
    assert DropInReverse(Started(), outcome) == DropOne(DriverLocal, outcome) + DropInReverse([GuardLocal], outcome);
    assert [BareCapability, DriverLocal][..1] == [BareCapability] && [BareCapability][..0] == [];
  }

  lemma NextEnds(s: Standing, act: Act)
    ensures var n := Next(s, act);
      if !n.standing.Ended? || s.Ended? then n.effects == []
      else if s.Unpolled? && act.DropFuture? then n.effects == [DriverGone]
      else |n.effects| == 2 && n.effects[0] == DriverGone && n.effects[1].Fired?
  {
    GuardOutlivesDriver(Panicked);
    GuardOutlivesDriver(Cancelled);
  }

  function History(s: Standing, acts: seq<Act>): Turn
    decreases |acts|
  {
    if acts == [] then Turn(s, [])
    else
      var first := Next(s, acts[0]);
      var rest := History(first.standing, acts[1..]);
      Turn(rest.standing, first.effects + rest.effects)
  }

  lemma {:induction false} EndedIsSilent(acts: seq<Act>)
    ensures History(Ended, acts) == Turn(Ended, [])
    decreases |acts|
  {
    if acts != [] {
      NextEnds(Ended, acts[0]);
      EndedIsSilent(acts[1..]);
    }
  }

  /** From the first poll on, the end fires the capability exactly once, as the last thing,
      when the Driver is gone. */
  lemma {:induction false} FiresOnceAfterDriver(s: Standing, acts: seq<Act>)
    requires s.Suspended? || s.Parked?
    ensures var h := History(s, acts);
      if h.standing.Ended? then |h.effects| == 2 && h.effects[0] == DriverGone && h.effects[1].Fired? else h.effects == []
    ensures !History(s, acts).standing.Unpolled?
    decreases |acts|
  {
    if acts != [] {
      var first := Next(s, acts[0]);
      NextEnds(s, acts[0]);
      if first.standing.Ended? {
        EndedIsSilent(acts[1..]);
        assert first.effects + [] == first.effects;
      } else {
        FiresOnceAfterDriver(first.standing, acts[1..]);
        assert [] + History(first.standing, acts[1..]).effects == History(first.standing, acts[1..]).effects;
      }
    }
  }

  /** Exact: an ended execution has fired its capability if and only if its future was
      polled at all; a future dropped before its first poll never builds the guard. */
  lemma FiresIffPolled(driver: DriverState, acts: seq<Act>)
    ensures var h := History(Unpolled(driver), acts);
      && (h.standing.Ended? ==>
            if acts[0].Poll? then |h.effects| == 2 && h.effects[0] == DriverGone && h.effects[1].Fired?
            else h.effects == [DriverGone])
      && (!h.standing.Ended? ==> h.effects == [])
  {
    if acts != [] {
      var first := Next(Unpolled(driver), acts[0]);
      NextEnds(Unpolled(driver), acts[0]);
      if first.standing.Ended? {
        EndedIsSilent(acts[1..]);
        assert first.effects + [] == first.effects;
      } else {
        FiresOnceAfterDriver(first.standing, acts[1..]);
        assert [] + History(first.standing, acts[1..]).effects == History(first.standing, acts[1..]).effects;
      }
    }
  }

  // ------------------------------------------------------------- the objects

  /** The guard: its capability is taken by whichever of completion and drop comes first. */
  class Terminal {
    var retirement: bool

    constructor ()
      ensures retirement
    {
      retirement := true;
    }

    method Complete(outcome: ActorOutcome) returns (effects: seq<Effect>)
      requires retirement
      modifies this
      ensures !retirement && effects == [Fired(outcome)]
    {
      retirement := false;
      effects := [Fired(outcome)];
    }

    method Drop(panicking: bool) returns (effects: seq<Effect>)
      modifies this
      ensures !retirement
      ensures effects == if old(retirement) then [Fired(if panicking then Panicked else Cancelled)] else []
    {
      effects := [];
      if retirement {
        retirement := false;
        effects := [Fired(if panicking then Panicked else Cancelled)];
      }
    }
  }

  /** The locals of the future. */
  class Execution {
    var driver: O.Driver?
    var terminal: Terminal?
    var survived: bool

    ghost predicate Valid()
      reads this, terminal, driver
    {
      && (driver != null ==> Inv(driver.State()))
      && (terminal != null ==> terminal.retirement == (driver != null))
      && (survived ==> driver != null && terminal != null)
    }

    ghost function Standing(): Standing
      reads this, terminal, driver
    {
      if driver == null then Ended
      else if terminal == null then Unpolled(driver.State())
      else if survived then Parked(driver.State())
      else Suspended(driver.State())
    }

    constructor (d: O.Driver)
      requires Inv(d.State())
      ensures Valid() && driver == d && terminal == null && Standing() == Unpolled(d.State())
    {
      driver, terminal, survived := d, null, false;
    }

    /** One poll, in which the Driver runs as far as the replies allow. A host that empties
        its inputs exactly when it replies never leaves the execution parked. */
    method Poll(rounds: seq<Round>) returns (effects: seq<Effect>, ghost answer: Answer)
      requires Valid() && driver != null && !survived
      modifies this, terminal, driver
      ensures Valid() && answer != Unwound && Turn(Standing(), effects) == Next(old(Standing()), Act.Poll(answer))
      ensures old(Tidy(driver.State())) && AllConserving(rounds) ==> !survived
      ensures answer == AnswerOf(old(driver.State()), rounds)
    {
      effects := [];
      if terminal == null {
        terminal := new Terminal();
      }
      var kept, reply;
      ghost var used;
      kept, reply, used := O.ReceiveRun(driver, None, rounds);
      answer := if reply.None? then Pending(driver.State()) else Returned(driver.State());
      if reply.Some? {
        effects := Receive(reply.value);
      }
    }

    /** A complete retirement ends the execution, and a surviving Driver parks it. */
    method Receive(reply: O.RunReply) returns (effects: seq<Effect>)
      requires Valid() && driver != null && terminal != null && !survived
      requires reply == if Vacated(driver.State()) then O.Complete(Reply(driver.State())) else O.Surviving(driver)
      modifies this, terminal
      ensures Valid() && Turn(Standing(), effects) == Next(old(Standing()), Act.Poll(Returned(old(driver.State()))))
      ensures survived <==> reply.Surviving?
    {
      effects := [];
      match reply {
        case Complete(retirement) =>
          GuardOutlivesDriver(Cancelled);
          driver := null;
          effects := terminal.Complete(FromRetirement(retirement));
          effects := [DriverGone] + effects;
        case Surviving(owner) =>
          driver := owner;
          survived := true;
      }
    }

    /** Locals go in reverse order: the Driver first, the guard last. */
    method DropFuture(panicking: bool) returns (effects: seq<Effect>)
      requires Valid() && driver != null
      modifies this, terminal
      ensures Valid() && Turn(Standing(), effects) == Next(old(Standing()), Act.DropFuture(panicking))
    {
      GuardOutlivesDriver(if panicking then Panicked else Cancelled);
      driver, survived := null, false;
      effects := [DriverGone];
      if terminal != null {
        var fired := terminal.Drop(panicking);
        effects := effects + fired;
      }
    }

    /** A panic that escapes the Driver during a poll unwinds through the same locals. */
    method Unwind() returns (effects: seq<Effect>)
      requires Valid() && driver != null && !survived
      modifies this, terminal
      ensures Valid() && Turn(Standing(), effects) == Next(old(Standing()), Act.Poll(Unwound))
    {
      GuardOutlivesDriver(Panicked);
      if terminal == null {
        terminal := new Terminal();
      }
      driver := null;
      var fired := terminal.Drop(true);
      effects := [DriverGone] + fired;
    }
  }
}
