/**
 * The status-monitor node's connection handling: the flags its event
 * handlers flip (`connected` and `loggedIn` of the session, `isHalfClosed`,
 * the reconnect countdown, the socket and the polling timers), the phase
 * change check, the daily re-run check and the error follow-up of each
 * poll.
 *
 * Each event has a transition function over `Flags` returning the new flags
 * and the side effects in order; the `StatusMonitor` class performs the
 * same transition on its fields and on the session object it shares.
 */
module Monitor {
  import opened Js
  import opened ErcState
  import opened Channel
  import opened Queues

  /** The text shown under the node. */
  datatype NodeStatus =
    | Disconnected
    | Connecting
    | Connected
    | ConnectedWithPhase(phase: Option<Phase>)
    | ReconnectAfter(seconds: int)

  /** A side effect of an event handler. */
  datatype Action =
    | Connect          // `rc.connect()` and the listeners added to the new socket
    | SendLogout       // `rc.logout()`, not awaited
    | EndSocket        // `rc.socket.end()`
    | DestroySocket    // `rc.socket.destroy()`
    | Show(status: NodeStatus)

  /** `rc.socket`: none yet, or the last socket created. */
  datatype SocketState = NoSocket | Socket(connecting: bool, destroyed: bool)

  /**
   * The flags the handlers read and write. `countdown` is
   * `node.timeoutCountDown`: `None` for null, else the interval is running
   * and holds `countDownTimer`. `timers` says whether the polling timeouts
   * may be pending; `stopping` whether the end callback of `idle` is still
   * to run.
   */
  datatype Flags = Flags(
    connected: bool, loggedIn: bool, halfClosed: bool, countdown: Option<int>,
    socket: SocketState, timers: bool, stopping: bool)

  datatype Transition = Transition(flags: Flags, actions: seq<Action>)

  /** Seconds shown before a reconnection. */
  const ReconnectTimer: int := 60

  /** The `'reconnect'` socket event: half-close, end, start the countdown. */
  function Reconnect(f: Flags): Transition
  {
    Transition(f.(halfClosed := true, countdown := Some(ReconnectTimer)), [EndSocket])
  }

  function Then(t: Transition, u: Transition): Transition
  {
    Transition(u.flags, t.actions + u.actions)
  }

  /** `rc.connect()`: a new socket, connecting. */
  function StartConnect(f: Flags): Flags
  {
    f.(socket := Socket(true, false))
  }

  function OnActive(f: Flags): Transition
  {
    if f.connected then Transition(f, [])
    else
      var f1 := f.(countdown := None);
      if f.socket.NoSocket? || !f.socket.connecting then Transition(StartConnect(f1), [Connect, Show(Connecting)])
      else Transition(f1, [])
  }

  function OnIdle(f: Flags): Transition
  {
    if f.connected then Transition(f.(timers := false, stopping := true), [SendLogout, EndSocket])
    else
      var destroy := f.socket.Socket? && !f.socket.destroyed;
      var f1 := if destroy then f.(socket := f.socket.(destroyed := true)) else f;
      Transition(f1.(countdown := None), (if destroy then [DestroySocket] else []) + [Show(Disconnected)])
  }

  /** The callback of the `end` that `idle` issued. */
  function OnIdleEnded(f: Flags): Transition
  {
    if !f.stopping then Transition(f, [])
    else
      Transition(f.(halfClosed := true, stopping := false,
                    socket := if f.socket.Socket? then f.socket.(destroyed := true) else f.socket),
                 [DestroySocket])
  }

  /** The socket's `'connect'` event. */
  function OnConnect(f: Flags): Transition
  {
    Transition(f.(connected := true, socket := if f.socket.Socket? then f.socket.(connecting := false) else f.socket),
               [Show(Connected)])
  }

  /** The socket's `'error'` event. */
  function OnError(f: Flags): Transition
  {
    Transition(f.(timers := false), [Show(Disconnected)])
  }

  function OnClose(f: Flags, hadError: bool): Transition
  {
    var f1 := f.(timers := false, loggedIn := false, connected := false, halfClosed := false,
                 socket := if f.socket.Socket? then f.socket.(destroyed := true) else f.socket);
    var t := Transition(f1, [DestroySocket, Show(Disconnected)]);
    if hadError then Then(t, Reconnect(f1)) else t
  }

  function OnEnd(f: Flags): Transition
  {
    var f1 := f.(timers := false);
    var t := if f.halfClosed then Transition(f1, [EndSocket]) else Reconnect(f1);
    Transition(t.flags.(halfClosed := false, connected := false), t.actions)
  }

  /** The socket's `'timeout'` event. */
  function OnTimeout(f: Flags): Transition
  {
    Reconnect(f.(timers := false))
  }

  /** The node's own `'close'` event (node removed or redeployed). */
  function OnNodeClose(f: Flags): Transition
  {
    Transition(f.(timers := false, countdown := None, halfClosed := true,
                  socket := if f.socket.Socket? then f.socket.(destroyed := true) else f.socket),
               [EndSocket, DestroySocket])
  }

  /** The first poll cycle failed: the error is reported and the socket half-closed. */
  function OnCycleFailed(f: Flags): Transition
  {
    Transition(f.(halfClosed := true), [EndSocket])
  }

  /** One tick of the reconnect countdown, while it runs. */
  function Tick(f: Flags): Transition
    requires f.countdown.Some?
  {
    var c := f.countdown.value;
    if c <= 0 then Transition(StartConnect(f.(countdown := None)), [Show(Connecting), Connect])
    else Transition(f.(countdown := Some(c - 1)), [Show(ReconnectAfter(c))])
  }

  // ---------------------------------------------------------------------------
  // Properties of the transitions

  /**
   * `active` does nothing when connected, and nothing when a socket is
   * already connecting and no countdown runs. Otherwise it cancels the
   * countdown, and it connects unless a socket is connecting.
   */
  lemma ActiveTransitions(f: Flags)
    ensures f.connected ==> OnActive(f) == Transition(f, [])
    ensures f.socket.Socket? && f.socket.connecting && f.countdown.None? ==> OnActive(f) == Transition(f, [])
    ensures !f.connected ==> OnActive(f).flags.countdown.None?
    ensures !f.connected ==> (Connect in OnActive(f).actions <==> !(f.socket.Socket? && f.socket.connecting))
  {
    if f.socket.Socket? && f.socket.connecting && f.countdown.None? {
      assert f.(countdown := None) == f;
    }
  }

  /**
   * `end` on a half-closed socket only ends it; otherwise it starts a
   * reconnection. Either way it clears the timers, `isHalfClosed` and
   * `connected`, and leaves `loggedIn` alone.
   */
  lemma EndTransitions(f: Flags)
    ensures var t := OnEnd(f);
      && !t.flags.halfClosed && !t.flags.connected && !t.flags.timers
      && t.flags.loggedIn == f.loggedIn
      && (f.halfClosed ==> t.actions == [EndSocket] && t.flags.countdown == f.countdown)
      && (!f.halfClosed ==> t.actions == [EndSocket] && t.flags.countdown == Some(ReconnectTimer))
  {
  }

  /**
   * `close` clears `connected`, `loggedIn`, `isHalfClosed` and the timers,
   * destroys the socket, and starts a reconnection exactly when the close
   * came with an error.
   */
  lemma CloseTransitions(f: Flags, hadError: bool)
    ensures var t := OnClose(f, hadError);
      && !t.flags.connected && !t.flags.loggedIn && !t.flags.timers
      && t.actions[..2] == [DestroySocket, Show(Disconnected)]
      && (hadError ==> t.flags.halfClosed && t.flags.countdown == Some(ReconnectTimer) && t.actions[2..] == [EndSocket])
      && (!hadError ==> !t.flags.halfClosed && t.flags.countdown == f.countdown && |t.actions| == 2)
  {
  }

  /**
   * Stopping a connected node: `idle` logs out and ends the socket, and
   * once the end is flushed the socket is half-closed, so the `end` that
   * follows does not reconnect.
   */
  lemma IdleStopsWithoutReconnect(f: Flags)
    requires f.connected
    ensures var t1 := OnIdle(f);
      var t2 := OnIdleEnded(t1.flags);
      var t3 := OnEnd(t2.flags);
      && t1.actions == [SendLogout, EndSocket]
      && t2.flags.halfClosed
      && t3.actions == [EndSocket]
      && t3.flags.countdown == f.countdown
      && !t3.flags.connected && !t3.flags.timers
  {
  }

  /**
   * `idle` while disconnected destroys a live socket, cancels the countdown
   * and shows the node disconnected.
   */
  lemma IdleWhileDisconnected(f: Flags)
    requires !f.connected
    ensures var t := OnIdle(f);
      && t.flags.countdown.None?
      && (t.flags.socket.Socket? ==> t.flags.socket.destroyed)
      && t.actions[|t.actions| - 1] == Show(Disconnected)
      && (DestroySocket in t.actions <==> f.socket.Socket? && !f.socket.destroyed)
  {
  }

  /** Removing the node half-closes the socket, so its `end` does not start a reconnection. */
  lemma NodeCloseDoesNotReconnect(f: Flags)
    ensures var t := OnEnd(OnNodeClose(f).flags);
      t.actions == [EndSocket] && t.flags.countdown.None?
  {
  }

  /** A socket timeout clears the polling timers and starts the reconnect countdown. */
  lemma TimeoutReconnects(f: Flags)
    ensures var t := OnTimeout(f);
      && !t.flags.timers && t.flags.halfClosed && t.flags.countdown == Some(ReconnectTimer)
      && t.actions == [EndSocket]
  {
  }

  /** n ticks from a countdown: the flags after them and everything shown or done. */
  function Ticks(f: Flags, n: nat): Transition
    decreases n
  {
    if n == 0 || f.countdown.None? then Transition(f, [])
    else
      var t := Tick(f);
      Then(t, Ticks(t.flags, n - 1))
  }

  /** `ReconnectAfter(c)`, `ReconnectAfter(c - 1)`, …, `ReconnectAfter(1)`. */
  function CountingDown(c: nat): seq<Action>
  {
    seq(c, i requires 0 <= i < c => Show(ReconnectAfter(c - i)))
  }

  /**
   * From a countdown at c, the next c ticks show c, c - 1, …, 1 seconds,
   * and the tick after them stops the countdown and connects.
   */
  lemma {:induction false} CountdownTicks(f: Flags, c: nat)
    requires f.countdown == Some(c)
    ensures var t := Ticks(f, c + 1);
      && t.actions == CountingDown(c) + [Show(Connecting), Connect]
      && t.flags == StartConnect(f.(countdown := None))
    decreases c
  {
    if c > 0 {
      var t := Tick(f);
      assert t.actions == [Show(ReconnectAfter(c))];
      CountdownTicks(t.flags, c - 1);
      assert t.flags.(countdown := None) == f.(countdown := None);
      assert CountingDown(c) == [Show(ReconnectAfter(c))] + CountingDown(c - 1);
    } else {
      assert Ticks(f, 1) == Then(Tick(f), Ticks(Tick(f).flags, 0));
    }
  }

  /** After a reconnection starts, 60 ticks count 60 … 1 and the 61st connects. */
  lemma ReconnectCountdown(f: Flags)
    ensures var r := Reconnect(f);
      var t := Ticks(r.flags, 61);
      && t.actions == CountingDown(60) + [Show(Connecting), Connect]
      && t.flags.countdown.None? && t.flags.socket == Socket(true, false)
  {
    CountdownTicks(Reconnect(f).flags, 60);
  }

  // ---------------------------------------------------------------------------
  // Polling decisions

  /**
   * A status update is due when the phase differs from the one last
   * shown. `None` stands for the empty string both start from: the
   * controller's phase before any `#GetStatus`, and `prevPhase`.
   */
  predicate PhaseChanged(prev: Option<Phase>, current: Option<Phase>)
  {
    prev != current
  }

  /**
   * The phases a run of polls shows, starting from `prev`: each poll whose
   * phase differs from the one remembered shows it, and every poll
   * remembers its phase.
   */
  function ShownOver(prev: Option<Phase>, phases: seq<Option<Phase>>): seq<Option<Phase>>
    decreases |phases|
  {
    if phases == [] then []
    else (if PhaseChanged(prev, phases[0]) then [phases[0]] else []) + ShownOver(phases[0], phases[1..])
  }

  /** The phase on display after a run: the last one shown, else the one shown before the run. */
  function OnDisplay(prev: Option<Phase>, shown: seq<Option<Phase>>): Option<Phase>
  {
    if shown == [] then prev else shown[|shown| - 1]
  }

  /**
   * Over any run of polls the status line is never updated with the phase
   * already on display (no two updates in a row carry the same phase, and
   * the first differs from the one shown before), yet after the run it
   * shows the phase of the last poll.
   */
  lemma {:induction false} PhaseShownOnChangeOnly(prev: Option<Phase>, phases: seq<Option<Phase>>)
    ensures var sh := ShownOver(prev, phases);
      && (|sh| > 0 ==> sh[0] != prev)
      && (forall i :: 0 <= i < |sh| - 1 ==> sh[i] != sh[i + 1])
      && (|phases| > 0 ==> OnDisplay(prev, sh) == phases[|phases| - 1])
      && |sh| <= |phases|
    decreases |phases|
  {
    if phases != [] {
      var p := phases[0];
      var rest := ShownOver(p, phases[1..]);
      PhaseShownOnChangeOnly(p, phases[1..]);
      if |phases| > 1 {
        assert phases[1..][|phases[1..]| - 1] == phases[|phases| - 1];
      }
      if PhaseChanged(prev, p) {
        var sh := [p] + rest;
        assert ShownOver(prev, phases) == sh;
        forall i | 0 <= i < |sh| - 1
          ensures sh[i] != sh[i + 1]
        {
          if i > 0 {
            assert sh[i] == rest[i - 1] && sh[i + 1] == rest[i];
          }
        }
      } else {
        assert ShownOver(prev, phases) == rest;
      }
    }
  }

  /** Milliseconds in a day. */
  const Day: int := 86400000

  /**
   * The daily queue runs again when more than a day has passed since it
   * last ran. A null timestamp counts as 0, as JavaScript's subtraction
   * does.
   */
  predicate DailyDue(now: int, performedAt: Option<int>)
  {
    now - (if performedAt.Some? then performedAt.value else 0) > Day
  }

  /** Due exactly when strictly more than 86 400 000 ms have passed; once due, it stays due. */
  lemma DailyDueStrict(t: int, now: int, later: int)
    ensures !DailyDue(t + Day, Some(t))
    ensures DailyDue(t + Day + 1, Some(t))
    ensures DailyDue(now, Some(t)) && later >= now ==> DailyDue(later, Some(t))
    ensures DailyDue(now, Some(t)) <==> now > t + Day
  {
  }

  // ---------------------------------------------------------------------------
  // The node

  class StatusMonitor {
    /** The session object the node drives; the node flips its `connected` and `loggedIn`. */
    const rc: EpsonRC
    /** `node.interval`, in seconds. */
    const interval: int

    var halfClosed: bool
    var countdown: Option<int>
    var socket: SocketState
    var timers: bool
    var stopping: bool
    var prevPhase: Option<Phase>
    var dailyJobPerformedAt: Option<int>
    /** Everything the handlers did, in order. */
    var log: seq<Action>

    function Current(): Flags
      reads this, rc
    {
      Flags(rc.connected, rc.loggedIn, halfClosed, countdown, socket, timers, stopping)
    }

    constructor(rc: EpsonRC, interval: int)
      ensures this.rc == rc && this.interval == interval
      ensures !halfClosed && countdown.None? && socket == NoSocket && !timers && !stopping
      ensures prevPhase.None? && dailyJobPerformedAt.None?
      ensures log == [Show(Disconnected)]
    {
      this.rc := rc;
      this.interval := interval;
      halfClosed := false;
      countdown := None;
      socket := NoSocket;
      timers := false;
      stopping := false;
      prevPhase := None;
      dailyJobPerformedAt := None;
      log := [Show(Disconnected)];
    }

    /** Stores a transition's flags, leaving the rest of the session alone. */
    method Apply(t: Transition)
      modifies this, rc
      ensures Current() == t.flags && log == old(log) + t.actions
      ensures prevPhase == old(prevPhase) && dailyJobPerformedAt == old(dailyJobPerformedAt)
      ensures unchanged(rc`lastCommand, rc`lastResponse, rc`controller, rc`robots, rc`warnings, rc`written)
    {
      rc.connected := t.flags.connected;
      rc.loggedIn := t.flags.loggedIn;
      halfClosed := t.flags.halfClosed;
      countdown := t.flags.countdown;
      socket := t.flags.socket;
      timers := t.flags.timers;
      stopping := t.flags.stopping;
      log := log + t.actions;
    }

    /** `'active'`. */
    method Active()
      modifies this
      ensures Current() == OnActive(old(Current())).flags && log == old(log) + OnActive(old(Current())).actions
      ensures prevPhase == old(prevPhase) && dailyJobPerformedAt == old(dailyJobPerformedAt)
    {
      if !rc.connected {
        if countdown.Some? {
          countdown := None;
        }
        if socket.NoSocket? || !socket.connecting {
          socket := Socket(true, false);
          log := log + [Connect, Show(Connecting)];
        }
      }
    }

    /** `'idle'`. */
    method Idle()
      modifies this
      ensures Current() == OnIdle(old(Current())).flags && log == old(log) + OnIdle(old(Current())).actions
      ensures prevPhase == old(prevPhase) && dailyJobPerformedAt == old(dailyJobPerformedAt)
    {
      if rc.connected {
        log := log + [SendLogout];
        timers := false;
        log := log + [EndSocket];
        stopping := true;
      } else {
        if socket.Socket? && !socket.destroyed {
          log := log + [DestroySocket];
          socket := socket.(destroyed := true);
        }
        if countdown.Some? {
          countdown := None;
        }
        log := log + [Show(Disconnected)];
      }
    }

    /** The socket's `'connect'` event: the session connects first, then the node shows it. */
    method SocketConnected(remoteAddress: Option<string>)
      modifies this, rc
      ensures Current() == OnConnect(old(Current())).flags && log == old(log) + OnConnect(old(Current())).actions
      ensures prevPhase.None? && dailyJobPerformedAt.None?
      ensures rc.State() == old(rc.State()).(connected := true, controller := old(rc.controller).(
        network := old(rc.controller).network.(address := remoteAddress)))
      ensures rc.warnings == old(rc.warnings) && rc.written == old(rc.written)
    {
      rc.OnConnected(remoteAddress);
      if socket.Socket? {
        socket := socket.(connecting := false);
      }
      log := log + [Show(Connected)];
      prevPhase := None;
      dailyJobPerformedAt := None;
    }

    /** The callback of the `end` issued by `'idle'`. */
    method IdleEnded()
      modifies this, rc
      ensures Current() == OnIdleEnded(old(Current())).flags && log == old(log) + OnIdleEnded(old(Current())).actions
      ensures prevPhase == old(prevPhase) && dailyJobPerformedAt == old(dailyJobPerformedAt)
      ensures unchanged(rc`lastCommand, rc`lastResponse, rc`controller, rc`robots, rc`warnings, rc`written)
    {
      Apply(OnIdleEnded(Current()));
    }

    /** The socket's `'error'` event. */
    method SocketError()
      modifies this, rc
      ensures Current() == OnError(old(Current())).flags && log == old(log) + OnError(old(Current())).actions
      ensures prevPhase == old(prevPhase) && dailyJobPerformedAt == old(dailyJobPerformedAt)
      ensures unchanged(rc`lastCommand, rc`lastResponse, rc`controller, rc`robots, rc`warnings, rc`written)
    {
      Apply(OnError(Current()));
    }

    /** The socket's `'timeout'` event. */
    method Timeout()
      modifies this
      ensures Current() == OnTimeout(old(Current())).flags && log == old(log) + OnTimeout(old(Current())).actions
      ensures prevPhase == old(prevPhase) && dailyJobPerformedAt == old(dailyJobPerformedAt)
    {
      timers := false;
      ReconnectEvent();
    }

    /** The node's `'close'` event. */
    method NodeClose()
      modifies this, rc
      ensures Current() == OnNodeClose(old(Current())).flags && log == old(log) + OnNodeClose(old(Current())).actions
      ensures prevPhase == old(prevPhase) && dailyJobPerformedAt == old(dailyJobPerformedAt)
      ensures unchanged(rc`lastCommand, rc`lastResponse, rc`controller, rc`robots, rc`warnings, rc`written)
    {
      Apply(OnNodeClose(Current()));
    }

    /** The `catch` of the first poll cycle. */
    method CycleFailed()
      modifies this
      ensures Current() == OnCycleFailed(old(Current())).flags && log == old(log) + OnCycleFailed(old(Current())).actions
      ensures prevPhase == old(prevPhase) && dailyJobPerformedAt == old(dailyJobPerformedAt)
    {
      halfClosed := true;
      log := log + [EndSocket];
    }

    /** The socket's `'close'` event. */
    method Close(hadError: bool)
      modifies this, rc
      ensures Current() == OnClose(old(Current()), hadError).flags
      ensures log == old(log) + OnClose(old(Current()), hadError).actions
      ensures prevPhase == old(prevPhase) && dailyJobPerformedAt == old(dailyJobPerformedAt)
      ensures unchanged(rc`lastCommand, rc`lastResponse, rc`controller, rc`robots, rc`warnings, rc`written)
    {
      Apply(OnClose(Current(), hadError));
    }

    /** The socket's `'end'` event. */
    method End()
      modifies this, rc
      ensures Current() == OnEnd(old(Current())).flags && log == old(log) + OnEnd(old(Current())).actions
      ensures prevPhase == old(prevPhase) && dailyJobPerformedAt == old(dailyJobPerformedAt)
      ensures unchanged(rc`lastCommand, rc`lastResponse, rc`controller, rc`robots, rc`warnings, rc`written)
    {
      timers := false;
      if halfClosed {
        log := log + [EndSocket];
      } else {
        ReconnectEvent();
      }
      halfClosed := false;
      rc.connected := false;
    }

    /** The socket's `'reconnect'` event. */
    method ReconnectEvent()
      modifies this
      ensures Current() == Reconnect(old(Current())).flags && log == old(log) + Reconnect(old(Current())).actions
      ensures prevPhase == old(prevPhase) && dailyJobPerformedAt == old(dailyJobPerformedAt)
    {
      halfClosed := true;
      log := log + [EndSocket];
      countdown := Some(ReconnectTimer);
    }

    /** One tick of the countdown interval. */
    method CountdownTick()
      requires countdown.Some?
      modifies this
      ensures Current() == Tick(old(Current())).flags && log == old(log) + Tick(old(Current())).actions
      ensures prevPhase == old(prevPhase) && dailyJobPerformedAt == old(dailyJobPerformedAt)
    {
      var c := countdown.value;
      if c <= 0 {
        countdown := None;
        log := log + [Show(Connecting)];
        socket := Socket(true, false);
        log := log + [Connect];
      } else {
        log := log + [Show(ReconnectAfter(c))];
        countdown := Some(c - 1);
      }
    }

    /**
     * After each periodic queue: show the phase when it changed, remember
     * it, and build the error follow-up queue from the session's error code,
     * locale and firmware.
     */
    method AfterPeriodic() returns (shown: bool, queueErr: seq<string>)
      modifies this
      ensures var current := rc.controller.status.phase;
        && shown == PhaseChanged(old(prevPhase), current)
        && prevPhase == current
        && log == old(log) + (if shown then [Show(ConnectedWithPhase(current))] else [])
        && queueErr == ErrorQueue(rc.controller.status.errCode, rc.locale.number, rc.controller.firmware)
      ensures Current() == old(Current()) && dailyJobPerformedAt == old(dailyJobPerformedAt)
    {
      var current := rc.controller.status.phase;
      shown := prevPhase != current;
      if shown {
        log := log + [Show(ConnectedWithPhase(current))];
      }
      prevPhase := current;
      queueErr := BuildErrorQueue(rc.controller.status.errCode, rc.locale.number, rc.controller.firmware);
    }

    /** Whether this tick of the polling timer re-runs the daily queue. */
    method DailyCheck(now: int) returns (due: bool)
      ensures due == DailyDue(now, dailyJobPerformedAt)
    {
      var since := if dailyJobPerformedAt.Some? then dailyJobPerformedAt.value else 0;
      due := now - since > Day;
    }

    /** The daily queue finished at `now`. */
    method DailyDone(now: int)
      modifies this
      ensures dailyJobPerformedAt == Some(now) && !DailyDue(now, dailyJobPerformedAt)
      ensures Current() == old(Current()) && log == old(log) && prevPhase == old(prevPhase)
    {
      dailyJobPerformedAt := Some(now);
    }
  }
}
