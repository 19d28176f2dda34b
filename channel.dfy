/**
 * The `EpsonRCState` object: the session state it holds and updates in
 * place, `command()` (not-connected guard, pre-send delay, framing,
 * `lastCommand`, cleaning of the reply, parsing), `exec()` over a queue and
 * `login()`/`logout()`.
 *
 * The socket is not modelled: what a command writes is appended to
 * `written`, and the controller's answer to each command is a parameter
 * (`None` when the socket reports an error instead of data). Emitted
 * `'warning'` events are appended to `warnings`.
 */
module Channel {
  import opened Js
  import opened Codec
  import opened ErcState
  import opened Parser

  /** Why `command()` throws or its promise is rejected. */
  datatype CommandError =
    | NotConnected
    | SocketError
    | Rejected(fatal: Fatal)

  function ErrorOf(f: Option<Fatal>): Option<CommandError>
  {
    match f
    case None => None
    case Some(x) => Some(Rejected(x))
  }

  /** One `command(cmd)`: the new state, the bytes written, whether the write waited, warnings and error. */
  datatype Step = Step(session: Session, frame: Option<string>, delayed: bool,
                       warnings: seq<Warning>, error: Option<CommandError>)

  /** `command(cmd)` answered by `reply`. */
  function CommandSpec(s: Session, terminator: Option<string>, cmd: string, reply: Option<string>): Step
  {
    if !s.connected then Step(s, None, false, [], Some(NotConnected))
    else
      var s1 := s.(lastCommand := cmd);
      var frame := Some(Frame(cmd, terminator));
      var delayed := NeedsDelay(s.lastResponse);
      match reply
      case None => Step(s1, frame, delayed, [], Some(SocketError))
      case Some(data) =>
        var o := Parse(s1, StripCrLf(data));
        Step(o.session, frame, delayed, o.warnings, ErrorOf(o.fatal))
  }

  function FramesOf(st: Step): seq<string>
  {
    match st.frame
    case None => []
    case Some(f) => [f]
  }

  /**
   * A command's contract: without a connection nothing is written and
   * nothing changes; with one, the framed command is written (after the
   * 10 ms wait when the previous reply asks for it), `lastCommand` becomes
   * the command, and a reply becomes `lastResponse` without line breaks.
   * The controller, cleaning the frame the same way, reads back the command.
   */
  lemma CommandContract(s: Session, terminatorName: string, cmd: string, reply: Option<string>)
    requires terminatorName in Terminators
    ensures var t := TerminatorOf(terminatorName);
      var st := CommandSpec(s, t, cmd, reply);
      && (!s.connected ==> st == Step(s, None, false, [], Some(NotConnected)))
      && (s.connected ==>
            && st.session.connected && st.session.lastCommand == cmd
            && st.frame == Some(cmd + Terminators[terminatorName])
            && StripCrLf(st.frame.value) == StripCrLf(cmd)
            && (st.delayed <==> NeedsDelay(s.lastResponse)))
      && (s.connected && reply.Some? ==>
            && st.session.lastResponse == StripCrLf(reply.value)
            && forall i :: 0 <= i < |st.session.lastResponse| ==> !IsLineBreak(st.session.lastResponse[i]))
  {
    FrameRoundTrip(cmd, terminatorName);
    if reply.Some? {
      StripCrLfClean(reply.value);
    }
  }

  function Head(replies: seq<Option<string>>): Option<string>
  {
    if |replies| == 0 then None else replies[0]
  }

  function Rest(replies: seq<Option<string>>): seq<Option<string>>
  {
    if |replies| == 0 then [] else replies[1..]
  }

  /** What `exec(queue)` did: final state, bytes written, warnings, and the error that stopped it. */
  datatype Run = Run(session: Session, frames: seq<string>, warnings: seq<Warning>, error: Option<CommandError>)

  /** `exec(queue)`: the commands in order, each awaited, stopping at the first error. */
  function ExecSpec(s: Session, terminator: Option<string>, queue: seq<string>, replies: seq<Option<string>>): Run
    decreases |queue|, 2
  {
    if |queue| == 0 then Run(s, [], [], None) else ExecStep(s, terminator, queue, replies)
  }

  /** The first command of a non-empty queue, then the rest of the queue unless it failed. */
  function ExecStep(s: Session, terminator: Option<string>, queue: seq<string>, replies: seq<Option<string>>): Run
    requires |queue| > 0
    decreases |queue|, 1
  {
    ExecAfter(CommandSpec(s, terminator, queue[0], Head(replies)), terminator, queue[1..], Rest(replies))
  }

  /** After a command's step `st`: stop on its error, else run the rest of the queue from its state. */
  function ExecAfter(st: Step, terminator: Option<string>, rest: seq<string>, replies: seq<Option<string>>): Run
    decreases |rest| + 1, 0
  {
    if st.error.Some? then Run(st.session, FramesOf(st), st.warnings, st.error)
    else
      var r := ExecSpec(st.session, terminator, rest, replies);
      Run(r.session, FramesOf(st) + r.frames, st.warnings + r.warnings, r.error)
  }

  /** One step of `exec`: the first command, then the rest of the queue unless it failed. */
  lemma ExecFirst(s: Session, t: Option<string>, queue: seq<string>, replies: seq<Option<string>>)
    requires |queue| > 0
    ensures var st := CommandSpec(s, t, queue[0], Head(replies));
      var rest := ExecSpec(st.session, t, queue[1..], Rest(replies));
      ExecSpec(s, t, queue, replies) ==
        if st.error.Some? then Run(st.session, FramesOf(st), st.warnings, st.error)
        else Run(rest.session, FramesOf(st) + rest.frames, st.warnings + rest.warnings, rest.error)
  {
    var st := CommandSpec(s, t, queue[0], Head(replies));
    assert ExecSpec(s, t, queue, replies) == ExecAfter(st, t, queue[1..], Rest(replies));
  }

  /** `ExecFirst` with the run's frames and warnings appended to earlier ones. */
  lemma ExecFirstAppended(s: Session, t: Option<string>, queue: seq<string>, replies: seq<Option<string>>,
                          w: seq<string>, v: seq<Warning>)
    requires |queue| > 0
    ensures var st := CommandSpec(s, t, queue[0], Head(replies));
      var r := ExecSpec(s, t, queue, replies);
      var rest := ExecSpec(st.session, t, queue[1..], Rest(replies));
      && (st.error.Some? ==> r == Run(st.session, FramesOf(st), st.warnings, st.error))
      && (st.error.None? ==>
            && r.session == rest.session && r.error == rest.error
            && w + r.frames == (w + FramesOf(st)) + rest.frames
            && v + r.warnings == (v + st.warnings) + rest.warnings)
  {
    ExecFirst(s, t, queue, replies);
  }

  /**
   * `exec` writes the queue's frames in order: a prefix of them, and all of
   * them exactly when no command failed. Without a connection it writes
   * nothing and fails at once.
   */
  lemma {:induction false} ExecWritesInOrder(s: Session, t: Option<string>, queue: seq<string>, replies: seq<Option<string>>)
    ensures var r := ExecSpec(s, t, queue, replies);
      && |r.frames| <= |queue|
      && (forall i :: 0 <= i < |r.frames| ==> r.frames[i] == Frame(queue[i], t))
      && (r.error.None? ==> |r.frames| == |queue|)
      && (r.error.Some? ==> |r.frames| >= 1 || r.error == Some(NotConnected))
      && (!s.connected && |queue| > 0 ==> r == Run(s, [], [], Some(NotConnected)))
    decreases |queue|
  {
    if |queue| > 0 {
      ExecFirst(s, t, queue, replies);
      var st := CommandSpec(s, t, queue[0], Head(replies));
      if st.error.None? {
        ExecWritesInOrder(st.session, t, queue[1..], Rest(replies));
        var rest := ExecSpec(st.session, t, queue[1..], Rest(replies));
        var r := ExecSpec(s, t, queue, replies);
        assert r.frames == [Frame(queue[0], t)] + rest.frames;
        forall i | 0 <= i < |r.frames|
          ensures r.frames[i] == Frame(queue[i], t)
        {
          if i > 0 {
            assert r.frames[i] == rest.frames[i - 1];
            assert queue[1..][i - 1] == queue[i];
          }
        }
      }
    }
  }

  /** Once a command of the queue fails, later commands are never sent and change nothing. */
  lemma {:induction false} ExecStopsAtFirstError(s: Session, t: Option<string>, q1: seq<string>, q2: seq<string>,
                                                  replies: seq<Option<string>>)
    requires ExecSpec(s, t, q1, replies).error.Some?
    ensures ExecSpec(s, t, q1 + q2, replies) == ExecSpec(s, t, q1, replies)
    decreases |q1|
  {
    ExecFirst(s, t, q1, replies);
    ExecFirst(s, t, q1 + q2, replies);
    var st := CommandSpec(s, t, q1[0], Head(replies));
    assert (q1 + q2)[0] == q1[0];
    if st.error.None? {
      assert (q1 + q2)[1..] == q1[1..] + q2;
      ExecStopsAtFirstError(st.session, t, q1[1..], q2, Rest(replies));
    }
  }

  /** The loop of the per-robot handlers: robot i takes the reply's values for position i. */
  method UpdateEach(q: PerRobotReply, robots: seq<Robot>, arr: seq<string>) returns (rs: seq<Robot>)
    ensures |rs| == |robots|
    ensures forall k :: 0 <= k < |rs| ==> rs[k] == PerRobot(q, robots[k], arr, k)
  {
    rs := robots;
    var i := 0;
    while i < |rs|
      invariant 0 <= i <= |rs| == |robots|
      invariant forall k :: 0 <= k < i ==> rs[k] == PerRobot(q, robots[k], arr, k)
      invariant forall k :: i <= k < |rs| ==> rs[k] == robots[k]
    {
      rs := rs[i := PerRobot(q, rs[i], arr, i)];
      i := i + 1;
    }
  }

  /** The session object. */
  class EpsonRC {
    const host: string
    const port: string
    const password: string
    const terminator: Option<string>
    const locale: Locale

    var connected: bool
    var loggedIn: bool
    var lastCommand: string
    var lastResponse: string
    var controller: Controller
    var robots: seq<Robot>
    /** The `'warning'` events emitted so far. */
    var warnings: seq<Warning>
    /** Everything written to the socket so far. */
    var written: seq<string>

    function State(): Session
      reads this
    {
      Session(connected, loggedIn, lastCommand, lastResponse, controller, robots)
    }

    /** The locale record is passed in already looked up in `Locales`. */
    constructor(host: string, port: string, password: string, terminatorName: string, locale: Locale)
      ensures State() == InitialSession(host, port)
      ensures this.host == host && this.port == port && this.password == password
      ensures terminator == TerminatorOf(terminatorName) && this.locale == locale
      ensures warnings == [] && written == []
    {
      this.host := host;
      this.port := port;
      this.password := password;
      this.terminator := TerminatorOf(terminatorName);
      this.locale := locale;
      var s := InitialSession(host, port);
      connected := s.connected;
      loggedIn := s.loggedIn;
      lastCommand := s.lastCommand;
      lastResponse := s.lastResponse;
      controller := s.controller;
      robots := s.robots;
      warnings := [];
      written := [];
    }

    /** The socket's connect callback: connected, with the peer's address recorded. */
    method OnConnected(remoteAddress: Option<string>)
      modifies this
      ensures State() == old(State()).(connected := true, controller := old(controller).(
        network := old(controller).network.(address := remoteAddress)))
      ensures warnings == old(warnings) && written == old(written)
    {
      connected := true;
      controller := controller.(network := controller.network.(address := remoteAddress));
    }

    // -------------------------------------------------------------------------
    // Handlers that update the state in place

    /** `#GetRobotName`, `#GetRobotSerial`, `#GetMotor`: one loop over the robots, or a warning. */
    method StoreEach(q: PerRobotReply, arr: seq<string>)
      modifies this
      ensures var o := ParseCounted(q, old(State()), arr);
        State() == o.session && warnings == old(warnings) + o.warnings && written == old(written)
    {
      ghost var s0 := State();
      if ToNumber(Field(arr, 1)) == Int(|robots|) {
        var rs := UpdateEach(q, robots, arr);
        assert rs == WithEach(q, s0.robots, arr);
        assert ParseCounted(q, s0, arr) == Done(s0.(robots := rs));
        robots := rs;
      } else {
        assert ParseCounted(q, s0, arr) == Warn(s0, CountMismatch(Field(arr, 1), |robots|, q == Motors));
        warnings := warnings + [CountMismatch(Field(arr, 1), |robots|, q == Motors)];
      }
    }

    /** `#GetRobotInfo`: a new list of `Number(field 1)` robots replaces the old one. */
    method StoreInventory(arr: seq<string>)
      modifies this
      ensures State() == old(State()).(robots := Inventory(arr))
      ensures warnings == old(warnings) && written == old(written)
    {
      var num := ToNumber(Field(arr, 1));
      var rs: seq<Robot> := [];
      var i := 0;
      while num.Int? && i < num.value
        invariant 0 <= i <= InventoryCount(arr)
        invariant rs == Inventory(arr)[..i]
        decreases (if num.Int? then num.value else 0) - i
      {
        rs := rs + [NewRobot(arr, i)];
        i := i + 1;
      }
      assert i == InventoryCount(arr);
      robots := rs;
    }

    /** `#GetHofs`: the values go to the robot the last command named. */
    method StoreHofs(arr: seq<string>) returns (fatal: Option<Fatal>)
      requires |arr| >= 1
      modifies this
      ensures var o := ParseHofs(old(State()), arr);
        State() == o.session && fatal == o.fatal && warnings == old(warnings) && written == old(written)
    {
      var n := FirstDigit(lastCommand);
      if n < 1 || n > |robots| {
        return Some(Fault(NoRobotAt(n - 1)));
      }
      var r := robots[n - 1];
      robots := robots[n - 1 := r.(hofs := Numbers(HofsFields(arr, r.joints)))];
      return None;
    }

    /** `#GetPartWarning`: the six flags of the robot the last command named. */
    method StorePartWarning(arr: seq<string>) returns (fatal: Option<Fatal>)
      modifies this
      ensures var o := ParsePartWarning(old(State()), arr);
        State() == o.session && fatal == o.fatal && warnings == old(warnings) && written == old(written)
    {
      var n := FirstDigit(lastCommand);
      if n < 1 || n > |robots| {
        return Some(Fault(NoRobotAt(n - 1)));
      }
      var w := PartWarnings(
        Truthy(Field(arr, 1)), Truthy(Field(arr, 2)), Truthy(Field(arr, 3)),
        Truthy(Field(arr, 4)), Truthy(Field(arr, 5)), Truthy(Field(arr, 6)));
      robots := robots[n - 1 := robots[n - 1].(warnings := Some(w))];
      return None;
    }

    /** `#GetHealthRB`: the (joint, part) entry is created when missing, then overwritten. */
    method StoreHealthRB(arr: seq<string>) returns (fatal: Option<Fatal>)
      modifies this
      ensures var o := ParseHealthRB(old(State()), arr);
        State() == o.session && fatal == o.fatal && warnings == old(warnings) && written == old(written)
    {
      ghost var s0 := State();
      if Field(arr, 1) == Some("-1") {
        assert ParseHealthRB(s0, arr) == Done(s0);
        return None;
      }
      var ds := Digits(lastCommand);
      if |ds| == 0 {
        assert ParseHealthRB(s0, arr) == Throw(s0, Fault(NoDigitsInCommand));
        return Some(Fault(NoDigitsInCommand));
      }
      if |arr| < 2 {
        assert ParseHealthRB(s0, arr) == Throw(s0, Fault(MissingField(1)));
        return Some(Fault(MissingField(1)));
      }
      var p := PartHealth(DateTimeToIso(arr[1]), ToNumber(Field(arr, 2)), ToNumber(Field(arr, 3)));
      var part := PartName(if |ds| > 1 then Some(ds[1]) else None);
      var joint := JointKey(ds);
      var n := ds[0];
      if n < 1 || n > |robots| {
        assert ParseHealthRB(s0, arr) == Throw(s0, Fault(NoRobotAt(n - 1)));
        return Some(Fault(NoRobotAt(n - 1)));
      }
      var r := robots[n - 1];
      var h := r.health;
      if joint !in h {
        h := h[joint := map[]];
      }
      h := h[joint := h[joint][part := p]];
      assert h == StoreHealth(r.health, joint, part, p);
      assert ParseHealthRB(s0, arr) == Done(SetRobot(s0, n - 1, r.(health := h)));
      robots := robots[n - 1 := r.(health := h)];
      return None;
    }

    /** `#GetHealthCont`: the battery record, created first when missing. */
    method StoreHealthCont(arr: seq<string>) returns (fatal: Option<Fatal>)
      modifies this
      ensures var o := ParseHealthCont(old(State()), arr);
        State() == o.session && fatal == o.fatal && warnings == old(warnings) && written == old(written)
    {
      if Field(arr, 1) == Some("-1") {
        controller := controller.(health := NoBattery);
        return None;
      }
      if controller.health == NoBattery {
        controller := controller.(health := EmptyBattery);
      }
      if |arr| < 2 {
        return Some(Fault(MissingField(1)));
      }
      var p := PartHealth(DateTimeToIso(arr[1]), ToNumber(Field(arr, 2)), ToNumber(Field(arr, 3)));
      controller := controller.(health := Battery(p));
      return None;
    }

    /** `#GetStatus`: error code first, then phase and signals, then the clearing on "0000". */
    method StoreStatus(arr: seq<string>)
      modifies this
      ensures State() == ParseStatus(old(State()), arr).session
      ensures warnings == old(warnings) && written == old(written)
    {
      ghost var s0 := State();
      controller := controller.(status := controller.status.(errCode := Field(arr, 2)));
      var bits := BitsOf(ParseBinary(Field(arr, 1)));
      controller := controller.(status := controller.status.(
        phase := Some(DecodePhase(bits)), signal := Some(DecodeSignals(bits))));
      if controller.status.errCode == Some("0000") {
        controller := controller.(status := controller.status.(errMsg := Some(""), errFunc := None));
      }
      assert controller == ParseStatus(s0, arr).session.controller;
    }

    /** `#GetErrFunc`. */
    method StoreErrFunc(arr: seq<string>) returns (fatal: Option<Fatal>)
      modifies this
      ensures var o := ParseErrFunc(old(State()), arr);
        State() == o.session && fatal == o.fatal && warnings == old(warnings) && written == old(written)
    {
      var f: Option<ErrFunc> := None;
      if Field(arr, 1) != Some("0") {
        if |arr| < 2 {
          return Some(Fault(MissingField(1)));
        }
        if |arr| < 6 {
          return Some(Fault(MissingField(5)));
        }
        f := Some(ErrFunc(Trim(arr[1]), ToNumber(Field(arr, 2)), ToNumber(Field(arr, 3)),
                          ToNumber(Field(arr, 4)), DateTimeToIso(arr[5])));
      }
      controller := controller.(status := controller.status.(errFunc := f));
      return None;
    }

    /** The handler chosen by the reply's name. */
    method Dispatch(h: Handler, arr: seq<string>) returns (fatal: Option<Fatal>)
      requires |arr| >= 1
      modifies this
      ensures var o := Handle(h, old(State()), arr);
        State() == o.session && fatal == o.fatal && warnings == old(warnings) + o.warnings && written == old(written)
    {
      if SetsOneField(h) {
        fatal := DispatchSession(h, arr);
      } else {
        fatal := DispatchRobots(h, arr);
      }
    }

    /** The handlers that read or write the robot list. */
    method DispatchRobots(h: Handler, arr: seq<string>) returns (fatal: Option<Fatal>)
      requires |arr| >= 1 && !SetsOneField(h)
      modifies this
      ensures var o := HandleRobots(h, old(State()), arr);
        State() == o.session && fatal == o.fatal && warnings == old(warnings) + o.warnings && written == old(written)
    {
      fatal := None;
      match h {
        case GetRobotName => StoreEach(Names, arr);
        case GetRobotSerial => StoreEach(Serials, arr);
        case GetHofs => fatal := StoreHofs(arr);
        case GetHealthCont => fatal := StoreHealthCont(arr);
        case GetPartWarning => fatal := StorePartWarning(arr);
        case GetHealthRB => fatal := StoreHealthRB(arr);
        case GetRobotInfo => StoreInventory(arr);
        case GetStatus => StoreStatus(arr);
        case GetErrFunc => fatal := StoreErrFunc(arr);
        case GetMotor => StoreEach(Motors, arr);
      }
    }

    /** The handlers that only set a field of the session or of the controller. */
    method DispatchSession(h: Handler, arr: seq<string>) returns (fatal: Option<Fatal>)
      requires |arr| >= 1 && SetsOneField(h)
      modifies this
      ensures var o := HandleField(h, old(State()), arr);
        State() == o.session && fatal == o.fatal && warnings == old(warnings) + o.warnings && written == old(written)
    {
      var f1 := Field(arr, 1);
      fatal := None;
      match h {
        case Login => loggedIn := true;
        case Logout => loggedIn := false;
        case GetContName => controller := controller.(name := f1);
        case GetContNo => controller := controller.(serial := f1);
        case GetContVer =>
          if f1.None? {
            fatal := Some(Fault(MissingField(1)));
          } else {
            controller := controller.(firmware := RemoveSpaces(f1.value));
          }
        case GetContType => controller := controller.(model := f1);
        case GetContDev => controller := controller.(controlledBy := f1);
        case GetSubnetMask => controller := controller.(network := controller.network.(subnetMask := f1));
        case GetDefaultGateway => controller := controller.(network := controller.network.(defaultGateway := f1));
        case GetContMacAdd => controller := controller.(network := controller.network.(macAddress := f1));
        case GetCameraModel => controller := controller.(camera := f1);
        case GetPrjName => controller := controller.(project := f1);
        case GetErrMsg => controller := controller.(status := controller.status.(errMsg := f1));
        case GetCurRobot => controller := controller.(status := controller.status.(currentRobot := Some(ToNumber(f1))));
        case GetCpuLoad => controller := controller.(status := controller.status.(cpuLoad := Some(ToNumber(f1))));
        case GetContSettings =>
          controller := controller.(preferences := Some(DecodePreferences(BitsOf(ParseBinary(f1)))));
      }
    }

    /** `_parseResponse(res)`. */
    method ParseResponse(res: string) returns (fatal: Option<Fatal>)
      modifies this
      ensures var o := Parse(old(State()), res);
        State() == o.session && fatal == o.fatal && warnings == old(warnings) + o.warnings && written == old(written)
    {
      lastResponse := res;
      var arr := Split(res, ',');
      if !StartsWith(arr[0], "#") {
        var code := Field(arr, 1);
        if StartsWith(arr[0], "!") {
          if IsLoginFailure(code) {
            return Some(LoginRejected(res, code));
          }
          warnings := warnings + [RemoteCommandError(res, code)];
        } else {
          warnings := warnings + [InvalidResponse(res)];
        }
        return None;
      }
      var h := HandlerFor(arr[0]);
      if h.Some? {
        fatal := Dispatch(h.value, arr);
      } else {
        warnings := warnings + [UnsupportedResponse(res)];
        fatal := None;
      }
    }

    // -------------------------------------------------------------------------
    // command(), exec(), login(), logout()

    /** `command(cmd)`, the controller answering with `reply`. */
    method Command(cmd: string, reply: Option<string>) returns (err: Option<CommandError>, delayed: bool)
      modifies this
      ensures var st := CommandSpec(old(State()), terminator, cmd, reply);
        && State() == st.session && err == st.error && delayed == st.delayed
        && written == old(written) + FramesOf(st) && warnings == old(warnings) + st.warnings
    {
      if !connected {
        return Some(NotConnected), false;
      }
      delayed := NeedsDelay(lastResponse);
      written := written + [Frame(cmd, terminator)];
      lastCommand := cmd;
      match reply {
        case None =>
          err := Some(SocketError);
        case Some(data) =>
          lastResponse := StripCrLf(data);
          var fatal := ParseResponse(lastResponse);
          err := ErrorOf(fatal);
      }
    }

    /** `exec(queue)`: the commands one after another, stopping at the first error. */
    method Exec(queue: seq<string>, replies: seq<Option<string>>) returns (err: Option<CommandError>)
      modifies this
      ensures var r := ExecSpec(old(State()), terminator, queue, replies);
        && State() == r.session && err == r.error
        && written == old(written) + r.frames && warnings == old(warnings) + r.warnings
    {
      var i := 0;
      var rep := replies;
      while i < |queue|
        invariant 0 <= i <= |queue|
        invariant var r := ExecSpec(old(State()), terminator, queue, replies);
          var rest := ExecSpec(State(), terminator, queue[i..], rep);
          && r.session == rest.session && r.error == rest.error
          && old(written) + r.frames == written + rest.frames
          && old(warnings) + r.warnings == warnings + rest.warnings
      {
        var e := ExecHead(queue[i..], rep);
        if e.Some? {
          return e;
        }
        assert queue[i..][1..] == queue[i + 1..];
        rep := Rest(rep);
        i := i + 1;
      }
      return None;
    }

    /**
     * One round of `exec`: the first command of `queue`. On an error the run
     * is over; otherwise what is left of it is the run of the other commands.
     */
    method ExecHead(queue: seq<string>, replies: seq<Option<string>>) returns (err: Option<CommandError>)
      requires |queue| > 0
      modifies this
      ensures var r := ExecSpec(old(State()), terminator, queue, replies);
        err.Some? ==>
          && State() == r.session && err == r.error
          && written == old(written) + r.frames && warnings == old(warnings) + r.warnings
      ensures var r := ExecSpec(old(State()), terminator, queue, replies);
        var rest := ExecSpec(State(), terminator, queue[1..], Rest(replies));
        err.None? ==>
          && r.session == rest.session && r.error == rest.error
          && old(written) + r.frames == written + rest.frames
          && old(warnings) + r.warnings == warnings + rest.warnings
    {
      ExecFirstAppended(State(), terminator, queue, replies, written, warnings);
      var d;
      err, d := Command(queue[0], Head(replies));
    }

    /** `login()`: sends `$Login,<password>` only when connected and not logged in. */
    method Login(reply: Option<string>) returns (err: Option<CommandError>)
      modifies this
      ensures old(connected && !loggedIn) ==>
        var st := CommandSpec(old(State()), terminator, "$Login," + password, reply);
        && State() == st.session && err == st.error
        && written == old(written) + FramesOf(st) && warnings == old(warnings) + st.warnings
      ensures !old(connected && !loggedIn) ==>
        State() == old(State()) && err == None && written == old(written) && warnings == old(warnings)
    {
      err := None;
      if connected && !loggedIn {
        var d;
        err, d := Command("$Login," + password, reply);
      }
    }

    /** `logout()`: sends `$Logout` only when connected and logged in. */
    method Logout(reply: Option<string>) returns (err: Option<CommandError>)
      modifies this
      ensures old(connected && loggedIn) ==>
        var st := CommandSpec(old(State()), terminator, "$Logout", reply);
        && State() == st.session && err == st.error
        && written == old(written) + FramesOf(st) && warnings == old(warnings) + st.warnings
      ensures !old(connected && loggedIn) ==>
        State() == old(State()) && err == None && written == old(written) && warnings == old(warnings)
    {
      err := None;
      if connected && loggedIn {
        var d;
        err, d := Command("$Logout", reply);
      }
    }
  }
}
