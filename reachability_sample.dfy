/**
 * The reachability variant of the network status component: a monitor that
 * registers a callback and a dispatch queue on a reachability handle, records
 * whether the network is reachable, and posts a named notification on every
 * flags update.
 *
 * The functions on `Status` give the meaning of each operation; the class
 * `NetworkStatus` updates its fields step by step as the Swift `start`, `stop`
 * and `setFlags` do, and is proved to agree with them.
 */
module ReachabilitySample {
  import opened Wrappers

  /** The reachability flag set is a 32-bit option set. */
  type ReachabilityFlags = bv32

  /** The `.reachable` member of the flag set (bit 1). */
  const Reachable: ReachabilityFlags := 2

  predicate Contains(flags: ReachabilityFlags, member: ReachabilityFlags)
  {
    flags & member == member
  }

  /** The two notification names the monitor posts. */
  datatype NotificationName = NetworkReachable | NetworkUnreachable

  function RawValue(name: NotificationName): string
  {
    match name
    case NetworkReachable => "networkReachable"
    case NetworkUnreachable => "networkUnreachable"
  }

  /** Observers can tell the two notifications apart by name. */
  lemma RawValuesDistinct(a: NotificationName, b: NotificationName)
    ensures a != b ==> RawValue(a) != RawValue(b)
  {
  }

  /**
   * The operating system's view of the reachability handle: whether a
   * callback is registered on it and whether a dispatch queue is attached.
   */
  datatype Handle = Handle(callbackSet: bool, queueSet: bool)

  const Unregistered := Handle(false, false)

  /** The monitor's state: its three fields and the log of posted notifications. */
  datatype Status = Status(
    isReachable: bool,
    isRunning: bool,
    reachability: Option<Handle>,
    posted: seq<NotificationName>)

  /** The name that a flags update with the given reachability posts. */
  function NameFor(reachable: bool): NotificationName
  {
    if reachable then NetworkReachable else NetworkUnreachable
  }

  /** Whether the last notification posted (if any) said "reachable". */
  predicate LastPostedReachable(posted: seq<NotificationName>)
  {
    |posted| > 0 && posted[|posted| - 1] == NetworkReachable
  }

  /** The OS delivers reachability changes only through a registered callback on an attached queue. */
  predicate Delivering(s: Status)
  {
    s.reachability.Some? && s.reachability.value.callbackSet && s.reachability.value.queueSet
  }

  /**
   * The invariant every reachable state keeps: the monitor is running exactly
   * when a dispatch queue is attached, a queue is only attached on top of a
   * callback, and `isReachable` agrees with the last notification observers saw.
   */
  predicate Valid(s: Status)
  {
    (s.isRunning <==> s.reachability.Some? && s.reachability.value.queueSet)
    && (s.reachability.Some? && s.reachability.value.queueSet ==> s.reachability.value.callbackSet)
    && (s.isReachable <==> LastPostedReachable(s.posted))
  }

  /** The state after the initialiser; `createOk` is whether handle creation succeeded. */
  function Initial(createOk: bool): (t: Status)
    ensures !t.isReachable && !t.isRunning && t.posted == []
    ensures t.reachability.Some? <==> createOk
    ensures Valid(t) && !Delivering(t)
  {
    Status(false, false, if createOk then Some(Unregistered) else None, [])
  }

  /** `setFlags`: record reachability and post exactly one notification for it. */
  function FlagsSet(s: Status, flags: ReachabilityFlags): (t: Status)
    ensures t.isReachable <==> Contains(flags, Reachable)
    ensures |t.posted| == |s.posted| + 1 && t.posted[..|s.posted|] == s.posted
    ensures LastPostedReachable(t.posted) <==> Contains(flags, Reachable)
    ensures t.isRunning == s.isRunning && t.reachability == s.reachability
  {
    var reachable := Contains(flags, Reachable);
    s.(isReachable := reachable, posted := s.posted + [NameFor(reachable)])
  }

  /**
   * `stop`: `isRunning` is cleared on every path; the callback and the queue
   * are removed from the handle only if a handle exists and the monitor was running.
   */
  function Stopped(s: Status): (t: Status)
    ensures !t.isRunning
    ensures t.isReachable == s.isReachable && t.posted == s.posted
    ensures s.reachability.Some? && s.isRunning ==> t.reachability == Some(Unregistered)
    ensures !(s.reachability.Some? && s.isRunning) ==> t.reachability == s.reachability
  {
    var cleared := if s.reachability.Some? && s.isRunning then Some(Unregistered) else s.reachability;
    s.(isRunning := false, reachability := cleared)
  }

  /**
   * `start`, with the outcome of each OS call as a parameter: registering the
   * callback, attaching the dispatch queue, and reading the initial flags
   * (`flags` is what the read returns when it succeeds).
   */
  function Started(s: Status, setCallbackOk: bool, setQueueOk: bool, getFlagsOk: bool,
                   flags: ReachabilityFlags): (t: Status)
    // No handle, or already running: nothing changes.
    ensures s.reachability.None? || s.isRunning ==> t == s
    // Registering the callback or attaching the queue failed: not running, nothing posted.
    ensures s.reachability.Some? && !s.isRunning && !(setCallbackOk && setQueueOk) ==>
              !t.isRunning && t.isReachable == s.isReachable && t.posted == s.posted
              && t.reachability.Some? && t.reachability.value.queueSet == s.reachability.value.queueSet
    // Registering the callback failed: `stop` finds the monitor not running, so nothing changes.
    ensures s.reachability.Some? && !s.isRunning && !setCallbackOk ==> t == s
    // Attaching the queue failed: the callback registered just before stays registered.
    ensures s.reachability.Some? && !s.isRunning && setCallbackOk && !setQueueOk ==>
              t.reachability == Some(s.reachability.value.(callbackSet := true))
    // All three OS steps succeeded: running, reachability from the initial flags, one post.
    ensures s.reachability.Some? && !s.isRunning && setCallbackOk && setQueueOk && getFlagsOk ==>
              t.isRunning && (t.isReachable <==> Contains(flags, Reachable))
              && t.posted == s.posted + [NameFor(Contains(flags, Reachable))]
              && t.reachability == Some(Handle(true, true))
    // The initial flag read failed: no post, and yet running with the callback still installed.
    ensures s.reachability.Some? && !s.isRunning && setCallbackOk && setQueueOk && !getFlagsOk ==>
              t.isRunning && t.isReachable == s.isReachable && t.posted == s.posted
              && t.reachability == Some(Handle(true, true))
  {
    if s.reachability.None? || s.isRunning then
      s
    else if !setCallbackOk then
      Stopped(s)
    else
      var withCallback := s.(reachability := Some(s.reachability.value.(callbackSet := true)));
      if !setQueueOk then
        Stopped(withCallback)
      else
        var withQueue := withCallback.(reachability := Some(Handle(true, true)));
        var synced := if getFlagsOk then FlagsSet(withQueue, flags) else Stopped(withQueue);
        synced.(isRunning := true)
  }

  /**
   * A reachability change reported by the OS: the installed callback forwards
   * the new flags to `setFlags`, provided the OS still holds the callback on an
   * attached queue; otherwise the change reaches nobody.
   */
  function Changed(s: Status, flags: ReachabilityFlags): (t: Status)
    ensures Delivering(s) ==>
              (t.isReachable <==> Contains(flags, Reachable))
              && t.posted == s.posted + [NameFor(Contains(flags, Reachable))]
              && t.isRunning == s.isRunning && t.reachability == s.reachability
    ensures !Delivering(s) ==> t == s
  {
    if Delivering(s) then FlagsSet(s, flags) else s
  }

  /** The events that drive the monitor. */
  datatype Event =
    | Start(setCallbackOk: bool, setQueueOk: bool, getFlagsOk: bool, flags: ReachabilityFlags)
    | Stop
    | Change(flags: ReachabilityFlags)

  function Step(s: Status, e: Event): Status
  {
    match e
    case Start(cb, q, gf, flags) => Started(s, cb, q, gf, flags)
    case Stop => Stopped(s)
    case Change(flags) => Changed(s, flags)
  }

  /** The state after a sequence of events, applied in order. */
  function Run(s: Status, events: seq<Event>): Status
    decreases |events|
  {
    if |events| == 0 then s else Run(Step(s, events[0]), events[1..])
  }

  /** Every operation keeps the invariant. */
  lemma StepKeepsValid(s: Status, e: Event)
    requires Valid(s)
    ensures Valid(Step(s, e))
  {
  }

  lemma {:induction false} RunKeepsValid(s: Status, events: seq<Event>)
    requires Valid(s)
    ensures Valid(Run(s, events))
    decreases |events|
  {
    if |events| > 0 {
      StepKeepsValid(s, events[0]);
      RunKeepsValid(Step(s, events[0]), events[1..]);
    }
  }

  /** In every valid state the monitor is running exactly when the OS delivers changes to it. */
  lemma RunningIffDelivering(s: Status)
    requires Valid(s)
    ensures s.isRunning <==> Delivering(s)
  {
  }

  /** Starting a running monitor again changes nothing. */
  lemma StartIdempotent(s: Status, cb: bool, q: bool, gf: bool, f: ReachabilityFlags,
                        cb': bool, q': bool, gf': bool, f': ReachabilityFlags)
    requires Started(s, cb, q, gf, f).isRunning
    ensures Started(Started(s, cb, q, gf, f), cb', q', gf', f') == Started(s, cb, q, gf, f)
  {
  }

  /** Stopping twice is stopping once. */
  lemma StopIdempotent(s: Status)
    ensures Stopped(Stopped(s)) == Stopped(s)
  {
  }

  /** No de-duplication: two updates with the same flags post two notifications. */
  lemma RepeatedFlagsPostTwice(s: Status, flags: ReachabilityFlags)
    ensures FlagsSet(FlagsSet(s, flags), flags).posted
            == s.posted + [NameFor(Contains(flags, Reachable)), NameFor(Contains(flags, Reachable))]
  {
  }

  /** The log of notifications only grows, by at most one entry per event. */
  lemma {:induction false} RunOnlyAppends(s: Status, events: seq<Event>)
    ensures |s.posted| <= |Run(s, events).posted| <= |s.posted| + |events|
    ensures Run(s, events).posted[..|s.posted|] == s.posted
    decreases |events|
  {
    if |events| > 0 {
      var next := Step(s, events[0]);
      assert |next.posted| <= |s.posted| + 1 && next.posted[..|s.posted|] == s.posted;
      RunOnlyAppends(next, events[1..]);
      var last := Run(next, events[1..]);
      assert last.posted[..|s.posted|] == last.posted[..|next.posted|][..|s.posted|];
    }
  }

  /** Without a handle, the monitor never runs and never posts, whatever happens. */
  lemma {:induction false} UnavailableIsPermanent(s: Status, events: seq<Event>)
    requires s.reachability.None? && !s.isRunning
    ensures Run(s, events) == s
    decreases |events|
  {
    if |events| > 0 {
      UnavailableIsPermanent(Step(s, events[0]), events[1..]);
    }
  }

  /** Changes reported while the OS is not delivering leave the state as it is. */
  lemma {:induction false} UndeliveredChangesAreDropped(s: Status, events: seq<Event>)
    requires !Delivering(s)
    requires forall i :: 0 <= i < |events| ==> events[i].Change?
    ensures Run(s, events) == s
    decreases |events|
  {
    if |events| > 0 {
      UndeliveredChangesAreDropped(Step(s, events[0]), events[1..]);
    }
  }

  /** After `stop`, no change reported by the OS posts anything until the next `start`. */
  lemma NoPostAfterStop(s: Status, events: seq<Event>)
    requires Valid(s)
    requires forall i :: 0 <= i < |events| ==> events[i].Change?
    ensures Run(Stopped(s), events) == Stopped(s)
  {
    UndeliveredChangesAreDropped(Stopped(s), events);
  }

  /** The monitor object, with the log of posted notifications as a field. */
  class NetworkStatus {
    var isReachable: bool
    var isRunning: bool
    var reachability: Option<Handle>
    var posted: seq<NotificationName>

    function Snapshot(): Status
      reads this
    {
      Status(isReachable, isRunning, reachability, posted)
    }

    /** The initialiser; `createOk` is whether creating the reachability handle succeeded. */
    constructor (createOk: bool)
      ensures Snapshot() == Initial(createOk)
      ensures Valid(Snapshot())
    {
      isReachable := false;
      isRunning := false;
      posted := [];
      if createOk {
        reachability := Some(Unregistered);
      } else {
        reachability := None;
      }
    }

    method SetFlags(flags: ReachabilityFlags)
      modifies this
      ensures Snapshot() == FlagsSet(old(Snapshot()), flags)
      ensures isReachable <==> Contains(flags, Reachable)
      ensures posted == old(posted) + [NameFor(isReachable)]
    {
      isReachable := Contains(flags, Reachable);
      if isReachable {
        posted := posted + [NetworkReachable];
      } else {
        posted := posted + [NetworkUnreachable];
      }
    }

    method Stop()
      modifies this
      ensures Snapshot() == Stopped(old(Snapshot()))
      ensures !isRunning
      ensures Valid(old(Snapshot())) ==> Valid(Snapshot())
    {
      if reachability.Some? && isRunning {
        reachability := Some(Unregistered);
      }
      isRunning := false;  // the deferred reset runs on every exit
    }

    method Start(setCallbackOk: bool, setQueueOk: bool, getFlagsOk: bool, flags: ReachabilityFlags)
      modifies this
      ensures Snapshot() == Started(old(Snapshot()), setCallbackOk, setQueueOk, getFlagsOk, flags)
      ensures Valid(old(Snapshot())) ==> Valid(Snapshot())
    {
      if reachability.None? || isRunning {
        return;
      }
      if !setCallbackOk {
        Stop();
        return;
      }
      reachability := Some(reachability.value.(callbackSet := true));
      if !setQueueOk {
        Stop();
        return;
      }
      reachability := Some(reachability.value.(queueSet := true));
      // The block run synchronously on the reachability queue.
      if reachability.Some? {
        if !getFlagsOk {
          Stop();
        } else {
          SetFlags(flags);
        }
      }
      isRunning := true;
    }

    /** The callback installed by `start`, as invoked by the OS on a reachability change. */
    method ReachabilityChanged(flags: ReachabilityFlags)
      modifies this
      ensures Snapshot() == Changed(old(Snapshot()), flags)
      ensures Valid(old(Snapshot())) ==> Valid(Snapshot())
    {
      if reachability.Some? && reachability.value.callbackSet && reachability.value.queueSet {
        SetFlags(flags);
      }
    }
  }
}
