/** Acquiring an actor's join result and its termination notification, poll by poll. The
    two destinations belong to the caller, who may touch them only between waits. */
module JoinModel {
  import opened Basics
  import opened Counting

  /** The owning operation: whether the join handle and the cancellation sender are held. */
  datatype Owned = Owned(joining: bool, armed: bool)

  datatype Site = Site(owned: Option<Owned>, received: Option<Token>, notification: Option<Token>, waiting: bool)

  datatype Step =
    // a borrowing wait
    | StartFinish
    | StartRetirement
    | Poll(join: Option<Token>, notify: Option<Token>)
    | Abandon
    // the caller, between waits
    | RequestRetirement
    | DropOwner
    | TakeReceived
    | TakeNotification
    | PutReceived(value: Token)
    | PutNotification(value: Token)

  datatype Event =
    | CancellationSent
    | JoinPolled(joined: Option<Token>)
    | NotificationPolled(notified: Option<Token>)
    | Released
    | ReceivedTaken(value: Token)
    | NotificationTaken(value: Token)
    | ReceivedPut(value: Token)
    | NotificationPut(value: Token)

  datatype Outcome = Outcome(site: Site, events: seq<Event>)

  function Start(received: Option<Token>, notification: Option<Token>): Site {
    Site(Some(Owned(true, true)), received, notification, false)
  }

  /** Sending takes the sender, so it happens once at most. */
  function Request(s: Site): Outcome {
    if s.owned.Some? && s.owned.value.armed then
      Outcome(s.(owned := Some(s.owned.value.(armed := false))), [CancellationSent])
    else Outcome(s, [])
  }

  /** Disposing the owner sends the cancellation that is still armed. */
  function Dispose(s: Site): Outcome {
    var requested := Request(s);
    Outcome(requested.site.(owned := None), requested.events)
  }

  function BeginFinish(s: Site): Outcome {
    Outcome(if s.received.Some? && s.notification.Some? then s else s.(waiting := true), [])
  }

  /** Retirement of an owned actor: request first, then wait like a finish. */
  function BeginRetirement(s: Site): Outcome {
    if s.owned.Some? && s.owned.value.joining then
      if s.received.Some? || s.notification.Some? then Outcome(s, [])
      else
        var requested := Request(s);
        Outcome(BeginFinish(requested.site).site, requested.events)
    else BeginFinish(s)
  }

  /** Retirement of a projected child: the same guards in another order. */
  function BeginProjected(s: Site): Outcome {
    if s.received.Some? && s.notification.Some? then Outcome(s, [])
    else if s.owned.Some? && s.owned.value.joining then
      if s.received.Some? || s.notification.Some? then Outcome(s, [])
      else
        var requested := Request(s);
        Outcome(requested.site.(waiting := true), requested.events)
    else Outcome(s.(waiting := true), [])
  }

  /** One poll of the wait, with what the two producers would answer if asked. */
  function PollOnce(s: Site, join: Option<Token>, notify: Option<Token>): Outcome {
    if s.owned.None? then Outcome(s.(waiting := false), [])
    else if s.owned.value.joining then
      if s.received.Some? || s.notification.Some? then Outcome(s.(waiting := false), [])
      else if join.None? then Outcome(s, [JoinPolled(None)])
      else
        var rest := PollNotification(s.(received := join, owned := Some(Owned(false, false))), notify);
        Outcome(rest.site, [JoinPolled(join)] + rest.events)
    else PollNotification(s, notify)
  }

  function PollNotification(s: Site, notify: Option<Token>): Outcome {
    if s.notification.Some? then Release(s)
    else if notify.None? then Outcome(s, [NotificationPolled(None)])
    else
      var rest := Release(s.(notification := notify));
      Outcome(rest.site, [NotificationPolled(notify)] + rest.events)
  }

  function Release(s: Site): Outcome {
    var disposed := Dispose(s);
    Outcome(disposed.site.(waiting := false), disposed.events + [Released])
  }

  /** While a wait is live it borrows the owner and both destinations, so only polling and
      dropping it are possible; the caller's own steps need it to be over. */
  function Next(s: Site, step: Step): Outcome {
    if s.waiting then
      match step
      case Poll(join, notify) => PollOnce(s, join, notify)
      case Abandon => Outcome(s.(waiting := false), [])
      case _ => Outcome(s, [])
    else
      match step
      case StartFinish => BeginFinish(s)
      case StartRetirement => BeginRetirement(s)
      case RequestRetirement => Request(s)
      case DropOwner => Dispose(s)
      case TakeReceived =>
        if s.received.Some? then Outcome(s.(received := None), [ReceivedTaken(s.received.value)]) else Outcome(s, [])
      case TakeNotification =>
        if s.notification.Some? then Outcome(s.(notification := None), [NotificationTaken(s.notification.value)]) else Outcome(s, [])
      case PutReceived(value) =>
        if s.received.None? then Outcome(s.(received := Some(value)), [ReceivedPut(value)]) else Outcome(s, [])
      case PutNotification(value) =>
        if s.notification.None? then Outcome(s.(notification := Some(value)), [NotificationPut(value)]) else Outcome(s, [])
      case _ => Outcome(s, [])
  }

  function Run(s: Site, steps: seq<Step>): Outcome
    decreases |steps|
  {
    if steps == [] then Outcome(s, [])
    else
      var first := Next(s, steps[0]);
      var rest := Run(first.site, steps[1..]);
      Outcome(rest.site, first.events + rest.events)
  }

  // ------------------------------------------------------------------ safety

  /** A joined owner is never armed. */
  predicate Inv(s: Site) {
    s.owned.Some? && !s.owned.value.joining ==> !s.owned.value.armed
  }

  predicate Joining(s: Site) {
    s.owned.Some? && s.owned.value.joining
  }

  lemma NextKeepsInv(s: Site, step: Step)
    requires Inv(s)
    ensures Inv(Next(s, step).site)
    ensures Joining(Next(s, step).site) ==> Joining(s)
  {
  }

  predicate IsJoin(e: Event) { e.JoinPolled? && e.joined.Some? }
  predicate IsNotification(e: Event) { e.NotificationPolled? && e.notified.Some? }
  predicate IsCancellation(e: Event) { e.CancellationSent? }
  predicate IsRelease(e: Event) { e.Released? }

  function Armed(s: Site): nat { One(s.owned.Some? && s.owned.value.armed) }
  function HasOwner(s: Site): nat { One(s.owned.Some?) }

  /** Every step spends what it acquires or sends. */
  lemma NextSpends(s: Site, step: Step)
    requires Inv(s)
    ensures var n := Next(s, step);
      && |n.events| <= 3
      && Count(n.events, IsJoin) + One(Joining(n.site)) <= One(Joining(s))
      && Count(n.events, IsCancellation) + Armed(n.site) <= Armed(s)
      && Count(n.events, IsNotification) + HasOwner(n.site) <= HasOwner(s)
      && Count(n.events, IsRelease) + HasOwner(n.site) <= HasOwner(s)
  {
    var n := Next(s, step);
    CountShort(n.events, IsJoin);
    CountShort(n.events, IsCancellation);
    CountShort(n.events, IsNotification);
    CountShort(n.events, IsRelease);
  }

  lemma {:induction false} RunSpends(s: Site, steps: seq<Step>)
    requires Inv(s)
    ensures var n := Run(s, steps);
      && Inv(n.site)
      && Count(n.events, IsJoin) + One(Joining(n.site)) <= One(Joining(s))
      && Count(n.events, IsCancellation) + Armed(n.site) <= Armed(s)
      && Count(n.events, IsNotification) + HasOwner(n.site) <= HasOwner(s)
      && Count(n.events, IsRelease) + HasOwner(n.site) <= HasOwner(s)
    decreases |steps|
  {
    if steps != [] {
      var first := Next(s, steps[0]);
      NextSpends(s, steps[0]);
      NextKeepsInv(s, steps[0]);
      RunSpends(first.site, steps[1..]);
      var rest := Run(first.site, steps[1..]).events;
      CountAppend(first.events, rest, IsJoin);
      CountAppend(first.events, rest, IsCancellation);
      CountAppend(first.events, rest, IsNotification);
      CountAppend(first.events, rest, IsRelease);
    }
  }

  /** Once the join is acquired (or given up), it is not polled and nothing is cancelled. */
  lemma {:induction false} NotJoiningIsQuiet(s: Site, steps: seq<Step>, i: nat)
    requires Inv(s) && !Joining(s) && i < |Run(s, steps).events|
    ensures !Run(s, steps).events[i].JoinPolled? && !Run(s, steps).events[i].CancellationSent?
    decreases |steps|
  {
    var first := Next(s, steps[0]);
    NextKeepsInv(s, steps[0]);
    if i >= |first.events| {
      NotJoiningIsQuiet(first.site, steps[1..], i - |first.events|);
    }
  }

  lemma JoinEndsJoining(s: Site, step: Step, i: nat)
    requires Inv(s) && i < |Next(s, step).events| && IsJoin(Next(s, step).events[i])
    ensures !Joining(Next(s, step).site)
    ensures forall k :: i < k < |Next(s, step).events| ==>
      !Next(s, step).events[k].JoinPolled? && !Next(s, step).events[k].CancellationSent?
  {
  }

  /** A finished join is never polled again, and cancellation never follows it. */
  lemma {:induction false} QuietAfterJoin(s: Site, steps: seq<Step>, i: nat, k: nat)
    requires Inv(s) && i < k < |Run(s, steps).events| && IsJoin(Run(s, steps).events[i])
    ensures !Run(s, steps).events[k].JoinPolled? && !Run(s, steps).events[k].CancellationSent?
    decreases |steps|
  {
    var first := Next(s, steps[0]);
    NextKeepsInv(s, steps[0]);
    if i < |first.events| {
      JoinEndsJoining(s, steps[0], i);
      if k >= |first.events| {
        NotJoiningIsQuiet(first.site, steps[1..], k - |first.events|);
      }
    } else {
      QuietAfterJoin(first.site, steps[1..], i - |first.events|, k - |first.events|);
    }
  }

  // ------------------------------------------------------------ destinations

  /** What went into a destination, in order, and what came out of it. */
  function Entered(e: Event): seq<Token> {
    match e
    case JoinPolled(Some(t)) => [t]
    case ReceivedPut(t) => [t]
    case _ => []
  }

  function Left(e: Event): seq<Token> {
    match e
    case ReceivedTaken(t) => [t]
    case _ => []
  }

  function Notified(e: Event): seq<Token> {
    match e
    case NotificationPolled(Some(t)) => [t]
    case NotificationPut(t) => [t]
    case _ => []
  }

  function Fetched(e: Event): seq<Token> {
    match e
    case NotificationTaken(t) => [t]
    case _ => []
  }

  function All(events: seq<Event>, f: Event -> seq<Token>): seq<Token> {
    if events == [] then [] else f(events[0]) + All(events[1..], f)
  }

  function Contents(slot: Option<Token>): seq<Token> {
    if slot.Some? then [slot.value] else []
  }

  lemma {:induction false} AllAppend(a: seq<Event>, b: seq<Event>, f: Event -> seq<Token>)
    ensures All(a + b, f) == All(a, f) + All(b, f)
  {
    if a == [] {
      assert a + b == b;
    } else {
      assert (a + b)[1..] == a[1..] + b;
      AllAppend(a[1..], b, f);
    }
  }

  function AllThree(events: seq<Event>, f: Event -> seq<Token>): seq<Token> {
    (if |events| > 0 then f(events[0]) else [])
    + (if |events| > 1 then f(events[1]) else []) + (if |events| > 2 then f(events[2]) else [])
  }

  lemma AllShort(events: seq<Event>, f: Event -> seq<Token>)
    requires |events| <= 3
    ensures All(events, f) == AllThree(events, f)
  {
    if |events| > 0 {
      assert All(events, f) == f(events[0]) + All(events[1..], f);
      if |events| > 1 {
        assert All(events[1..], f) == f(events[1]) + All(events[1..][1..], f);
        if |events| > 2 {
          assert All(events[1..][1..], f) == f(events[2]) + All(events[1..][1..][1..], f);
        }
      }
    }
  }

  /** Both destinations are accounted for across these events. */
  ghost predicate Accounted(s: Site, events: seq<Event>, after: Site) {
    && Contents(s.received) + All(events, Entered) == All(events, Left) + Contents(after.received)
    && Contents(s.notification) + All(events, Notified) == All(events, Fetched) + Contents(after.notification)
  }

  lemma ShortIsAccounted(events: seq<Event>)
    requires |events| <= 3
    ensures All(events, Entered) == AllThree(events, Entered) && All(events, Left) == AllThree(events, Left)
    ensures All(events, Notified) == AllThree(events, Notified) && All(events, Fetched) == AllThree(events, Fetched)
  {
    AllShort(events, Entered);
    AllShort(events, Left);
    AllShort(events, Notified);
    AllShort(events, Fetched);
  }

  lemma NotificationConserves(s: Site, notify: Option<Token>)
    requires s.owned == Some(Owned(false, false))
    ensures var n := PollNotification(s, notify); |n.events| <= 2 && Accounted(s, n.events, n.site)
  {
    ShortIsAccounted(PollNotification(s, notify).events);
  }

  lemma JoinConserves(s: Site, join: Token, rest: Outcome)
    requires s.received.None? && Accounted(s.(received := Some(join), owned := Some(Owned(false, false))), rest.events, rest.site)
    ensures Accounted(s, [JoinPolled(Some(join))] + rest.events, rest.site)
  {
    AllAppend([JoinPolled(Some(join))], rest.events, Entered);
    AllAppend([JoinPolled(Some(join))], rest.events, Left);
    AllAppend([JoinPolled(Some(join))], rest.events, Notified);
    AllAppend([JoinPolled(Some(join))], rest.events, Fetched);
    ShortIsAccounted([JoinPolled(Some(join))]);
    assert All([JoinPolled(Some(join))], Notified) == [] && All([JoinPolled(Some(join))], Fetched) == [];
    assert [] + All(rest.events, Notified) == All(rest.events, Notified);
    assert [] + All(rest.events, Fetched) == All(rest.events, Fetched);
  }

  lemma PollConserves(s: Site, join: Option<Token>, notify: Option<Token>)
    requires Inv(s)
    ensures var n := PollOnce(s, join, notify); Accounted(s, n.events, n.site)
  {
    if s.owned.Some? && !s.owned.value.joining {
      NotificationConserves(s, notify);
    } else if s.owned.Some? && s.received.None? && s.notification.None? && join.Some? {
      var joined := s.(received := join, owned := Some(Owned(false, false)));
      NotificationConserves(joined, notify);
      JoinConserves(s, join.value, PollNotification(joined, notify));
    } else {
      ShortIsAccounted(PollOnce(s, join, notify).events);
    }
  }

  /** A step that touches one destination, or neither, and says so. */
  lemma OneIsAccounted(s: Site, e: Event, after: Site)
    requires Contents(s.received) + Entered(e) == Left(e) + Contents(after.received)
    requires Contents(s.notification) + Notified(e) == Fetched(e) + Contents(after.notification)
    ensures Accounted(s, [e], after)
  {
    ShortIsAccounted([e]);
  }

  lemma NoneIsAccounted(s: Site, after: Site)
    requires s.received == after.received && s.notification == after.notification
    ensures Accounted(s, [], after)
  {
  }

  lemma IdleConserves(s: Site, step: Step)
    requires !s.waiting
    ensures Accounted(s, Next(s, step).events, Next(s, step).site)
  {
    var n := Next(s, step);
    if n.events == [] {
      NoneIsAccounted(s, n.site);
    } else {
      OneIsAccounted(s, n.events[0], n.site);
    }
  }

  lemma NextConserves(s: Site, step: Step)
    requires Inv(s)
    ensures Accounted(s, Next(s, step).events, Next(s, step).site)
  {
    if !s.waiting {
      IdleConserves(s, step);
    } else if step.Poll? {
      PollConserves(s, step.join, step.notify);
    } else {
      ShortIsAccounted([]);
    }
  }

  /** Neither destination is ever overwritten: what goes in comes out, in order, or is
      still there. */
  lemma {:induction false} RunConserves(s: Site, steps: seq<Step>)
    requires Inv(s)
    ensures Accounted(s, Run(s, steps).events, Run(s, steps).site)
    decreases |steps|
  {
    if steps != [] {
      var first := Next(s, steps[0]);
      NextConserves(s, steps[0]);
      NextKeepsInv(s, steps[0]);
      RunConserves(first.site, steps[1..]);
      var rest := Run(first.site, steps[1..]);
      AllAppend(first.events, rest.events, Entered);
      AllAppend(first.events, rest.events, Left);
      AllAppend(first.events, rest.events, Notified);
      AllAppend(first.events, rest.events, Fetched);
      Chain(Contents(s.received), All(first.events, Entered), All(first.events, Left), Contents(first.site.received),
            All(rest.events, Entered), All(rest.events, Left), Contents(rest.site.received));
      Chain(Contents(s.notification), All(first.events, Notified), All(first.events, Fetched), Contents(first.site.notification),
            All(rest.events, Notified), All(rest.events, Fetched), Contents(rest.site.notification));
    }
  }

  lemma Chain(a: seq<Token>, in1: seq<Token>, out1: seq<Token>, b: seq<Token>, in2: seq<Token>, out2: seq<Token>, c: seq<Token>)
    requires a + in1 == out1 + b && b + in2 == out2 + c
    ensures a + (in1 + in2) == (out1 + out2) + c
  {
    assert a + (in1 + in2) == (a + in1) + in2;
    assert (out1 + b) + in2 == out1 + (b + in2);
    assert out1 + (out2 + c) == (out1 + out2) + c;
  }

  // -------------------------------------------------------------- completion

  /** The two retirement waits begin alike, in every state. */
  lemma RetirementsAgree(s: Site)
    ensures BeginRetirement(s) == BeginProjected(s)
  {
  }

  /** This poll would release the owner without asking for its notification. */
  predicate Loses(s: Site, step: Step) {
    step.Poll? && s.waiting && s.owned.Some? && !s.owned.value.joining && s.notification.Some?
  }

  lemma NextReleases(s: Site, step: Step)
    requires Inv(s)
    ensures var events := Next(s, step).events;
      && Count(events, IsRelease) <= Count(events, IsNotification) + One(Loses(s, step))
      && Count(events, IsNotification) <= Count(events, IsRelease)
      && (Loses(s, step) ==> Count(events, IsNotification) == 0 && Count(events, IsRelease) == 1)
  {
    NextSpends(s, step);
    CountShort(Next(s, step).events, IsNotification);
    CountShort(Next(s, step).events, IsRelease);
  }

  /** Some poll of the run loses the notification. */
  ghost predicate LosesOnTheWay(s: Site, steps: seq<Step>)
    decreases |steps|
  {
    steps != [] && (Loses(s, steps[0]) || LosesOnTheWay(Next(s, steps[0]).site, steps[1..]))
  }

  /** Exact: a run that releases its owner has acquired the notification once, unless some
      poll found the notification destination occupied after the join was acquired. */
  lemma {:induction false} ReleaseIffNotified(s: Site, steps: seq<Step>)
    requires Inv(s)
    ensures var events := Run(s, steps).events;
      && Count(events, IsRelease) == Count(events, IsNotification) + One(LosesOnTheWay(s, steps))
    decreases |steps|
  {
    if steps != [] {
      var first := Next(s, steps[0]);
      NextReleases(s, steps[0]);
      NextSpends(s, steps[0]);
      NextKeepsInv(s, steps[0]);
      ReleaseIffNotified(first.site, steps[1..]);
      var rest := Run(first.site, steps[1..]).events;
      CountAppend(first.events, rest, IsRelease);
      CountAppend(first.events, rest, IsNotification);
      RunSpends(first.site, steps[1..]);
    }
  }

  predicate OnlyEmpties(step: Step) {
    !step.PutNotification?
  }

  /** A caller that never fills the notification destination never loses one. */
  lemma {:induction false} EmptyingNeverLoses(s: Site, steps: seq<Step>)
    requires Inv(s) && (s.owned.Some? && !s.owned.value.joining ==> s.notification.None?)
    requires forall i :: 0 <= i < |steps| ==> OnlyEmpties(steps[i])
    ensures !LosesOnTheWay(s, steps)
    decreases |steps|
  {
    if steps != [] {
      assert OnlyEmpties(steps[0]);
      NextKeepsInv(s, steps[0]);
      EmptyingNeverLoses(Next(s, steps[0]).site, steps[1..]);
    }
  }

  lemma NextReleaseNeedsJoin(s: Site, step: Step)
    requires Inv(s) && Joining(s)
    ensures var n := Next(s, step);
      && Count(n.events, IsRelease) <= Count(n.events, IsJoin)
      && (Joining(n.site) || n.site.owned.None? || Count(n.events, IsJoin) == 1)
  {
    NextSpends(s, step);
    CountShort(Next(s, step).events, IsRelease);
    CountShort(Next(s, step).events, IsJoin);
  }

  /** Released means joined. */
  lemma {:induction false} ReleaseNeedsJoin(s: Site, steps: seq<Step>)
    requires Inv(s) && Joining(s)
    ensures Count(Run(s, steps).events, IsRelease) <= Count(Run(s, steps).events, IsJoin)
    decreases |steps|
  {
    if steps != [] {
      var first := Next(s, steps[0]);
      NextReleaseNeedsJoin(s, steps[0]);
      NextKeepsInv(s, steps[0]);
      var rest := Run(first.site, steps[1..]).events;
      CountAppend(first.events, rest, IsRelease);
      CountAppend(first.events, rest, IsJoin);
      if Joining(first.site) {
        ReleaseNeedsJoin(first.site, steps[1..]);
      } else if first.site.owned.None? {
        RunSpends(first.site, steps[1..]);
      } else {
        RunSpends(s, steps);
      }
    }
  }

  /** Exactly once, over every interleaving of waits, polls, dropped waits and a caller who
      only empties the notification destination: nothing twice, and both when released. */
  lemma ExactlyOnce(received: Option<Token>, notification: Option<Token>, steps: seq<Step>)
    requires forall i :: 0 <= i < |steps| ==> OnlyEmpties(steps[i])
    ensures var events := Run(Start(received, notification), steps).events;
      && Count(events, IsJoin) <= 1 && Count(events, IsNotification) <= 1 && Count(events, IsCancellation) <= 1
      && (Count(events, IsRelease) > 0 ==> Count(events, IsJoin) == 1 && Count(events, IsNotification) == 1)
  {
    var s := Start(received, notification);
    RunSpends(s, steps);
    EmptyingNeverLoses(s, steps);
    ReleaseIffNotified(s, steps);
    ReleaseNeedsJoin(s, steps);
  }

  /** Filling the destination between waits does lose the notification. */
  lemma FillingLoses(join: Token, foreign: Token) returns (steps: seq<Step>)
    ensures var events := Run(Start(None, None), steps).events;
      Count(events, IsRelease) == 1 && Count(events, IsNotification) == 0
  {
    var s0 := Start(None, None);
    var s1 := Next(s0, StartFinish).site;
    var s2 := Next(s1, Poll(Some(join), None)).site;
    var s3 := Next(s2, Abandon).site;
    var s4 := Next(s3, TakeReceived).site;
    var s5 := Next(s4, PutNotification(foreign)).site;
    var s6 := Next(s5, StartFinish).site;
    assert LosesOnTheWay(s6, [Poll(None, None)]);
    steps := LosesLater(s5, StartFinish, [Poll(None, None)]);
    steps := LosesLater(s4, PutNotification(foreign), steps);
    steps := LosesLater(s3, TakeReceived, steps);
    steps := LosesLater(s2, Abandon, steps);
    steps := LosesLater(s1, Poll(Some(join), None), steps);
    steps := LosesLater(s0, StartFinish, steps);
    ReleaseIffNotified(s0, steps);
    RunSpends(s0, steps);
  }

  lemma LosesLater(s: Site, step: Step, rest: seq<Step>) returns (steps: seq<Step>)
    requires LosesOnTheWay(Next(s, step).site, rest)
    ensures steps == [step] + rest && LosesOnTheWay(s, steps)
  {
    steps := [step] + rest;
    assert steps[1..] == rest;
  }
}
