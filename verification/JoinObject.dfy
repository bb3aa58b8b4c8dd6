/** The owning task and the destinations it fills, updated in place across polls. */
module JoinObject {
  import opened Basics
  import M = JoinModel

  /** The sender is taken by the request that uses it, or dropped unused. */
  class OwnerCancellationAuthority {
    var armed: bool

    constructor ()
      ensures armed
    {
      armed := true;
    }

    method Request() returns (events: seq<M.Event>)
      modifies this
      ensures !armed && events == if old(armed) then [M.CancellationSent] else []
    {
      events := if armed then [M.CancellationSent] else [];
      armed := false;
    }

    method Disarm()
      modifies this
      ensures !armed
    {
      armed := false;
    }
  }

  class OwnedTask {
    var joining: bool
    const cancellation: OwnerCancellationAuthority

    constructor ()
      ensures joining && cancellation.armed && fresh(cancellation)
    {
      joining := true;
      cancellation := new OwnerCancellationAuthority();
    }
  }

  /** A wait in progress or not, its owner, and the two destinations. */
  class JoinSite {
    var owned: OwnedTask?
    var received: Option<Token>
    var notification: Option<Token>
    var waiting: bool

    ghost function Site(): M.Site
      reads this, owned, if owned != null then {owned.cancellation} else {}
    {
      M.Site(if owned == null then None else Some(M.Owned(owned.joining, owned.cancellation.armed)),
             received, notification, waiting)
    }

    constructor (task: OwnedTask, received: Option<Token>, notification: Option<Token>)
      requires task.joining && task.cancellation.armed
      ensures Site() == M.Start(received, notification)
    {
      owned, this.received, this.notification, waiting := task, received, notification, false;
    }

    method RequestRetirement() returns (events: seq<M.Event>)
      modifies if owned != null then {owned.cancellation} else {}
      ensures M.Outcome(Site(), events) == M.Request(old(Site()))
    {
      events := [];
      if owned != null {
        events := owned.cancellation.Request();
      }
    }

    /** Dropping the owner drops its cancellation authority, which requests. */
    method DropOwner() returns (events: seq<M.Event>)
      modifies this, if owned != null then {owned.cancellation} else {}
      ensures M.Outcome(Site(), events) == M.Dispose(old(Site()))
    {
      events := RequestRetirement();
      owned := null;
    }

    method StartFinish()
      modifies this`waiting
      ensures M.Outcome(Site(), []) == M.BeginFinish(old(Site()))
    {
      if received.Some? && notification.Some? {
        return;
      }
      waiting := true;
    }

    method StartRetirement() returns (events: seq<M.Event>)
      modifies this`waiting, if owned != null then {owned.cancellation} else {}
      ensures M.Outcome(Site(), events) == M.BeginRetirement(old(Site()))
    {
      events := [];
      if owned != null && owned.joining {
        if received.Some? || notification.Some? {
          return;
        }
        events := owned.cancellation.Request();
      }
      StartFinish();
    }

    method PollNotification(notify: Option<Token>) returns (events: seq<M.Event>)
      requires owned != null
      modifies this, owned.cancellation
      ensures M.Outcome(Site(), events) == M.PollNotification(old(Site()), notify)
    {
      events := [];
      if notification.None? {
        events := [M.NotificationPolled(notify)];
        if notify.None? {
          return;
        }
        notification := notify;
      }
      var disposal := DropOwner();
      events := events + disposal + [M.Released];
      waiting := false;
    }

    /** One poll of the wait. */
    method Poll(join: Option<Token>, notify: Option<Token>) returns (events: seq<M.Event>)
      modifies this, if owned != null then {owned, owned.cancellation} else {}
      ensures M.Outcome(Site(), events) == M.PollOnce(old(Site()), join, notify)
    {
      events := [];
      if owned == null {
        waiting := false;
        return;
      }
      if owned.joining {
        if received.Some? || notification.Some? {
          waiting := false;
          return;
        }
        events := [M.JoinPolled(join)];
        if join.None? {
          return;
        }
        received := join;
        owned.joining := false;
        owned.cancellation.Disarm();
      }
      var rest := PollNotification(notify);
      events := events + rest;
    }
  }
}
