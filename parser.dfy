/**
 * `_parseResponse` of erc-state.js as a function of the session state and
 * one reply: the new state, the warnings emitted, and a fatal error when the
 * source throws. A reply is split on ',' and classified by its first field:
 * `#` is a success handled by the handler its name selects, `!` is a
 * protocol error whose code is the SECOND comma field, anything else is
 * invalid.
 */
module Parser {
  import opened Js
  import opened Codec
  import opened RobotModels
  import opened ErcState

  /**
   * The `'warning'` events, with what their text is built from. A `!` reply
   * keeps its code; the message is looked up in the constant table when the
   * text is built.
   */
  datatype Warning =
    | RemoteCommandError(response: string, code: Option<string>)
    | InvalidResponse(response: string)
    | UnsupportedResponse(response: string)
    | CountMismatch(stated: Option<string>, robots: nat, motor: bool)

  /** What a handler would throw a TypeError on. */
  datatype FaultCause =
    | MissingField(index: nat)
    | NoRobotAt(position: int)
    | NoDigitsInCommand

  /** Errors that escape `_parseResponse`. */
  datatype Fatal =
    | LoginRejected(response: string, code: Option<string>)
    | Fault(cause: FaultCause)

  /** The text of a `!` reply's warning or error: the reply, then its code's message. */
  function RemoteErrorText(res: string, code: Option<string>): string
  {
    "Remote command: " + res + ": " + Str(ErrMessage(code))
  }

  /** The text of a warning, as emitted. */
  function WarningText(w: Warning): string
  {
    match w
    case RemoteCommandError(res, code) => RemoteErrorText(res, code)
    case InvalidResponse(res) => "Invalid remote command response: " + res
    case UnsupportedResponse(res) => "Unsupported response: " + res
    case CountMismatch(stated, n, motor) =>
      "Response " + Str(stated) + " and number of robots " + NatToString(n)
      + (if motor then " don't match." else " doesn't match.")
  }

  datatype Outcome = Outcome(session: Session, warnings: seq<Warning>, fatal: Option<Fatal>)

  function Done(s: Session): Outcome { Outcome(s, [], None) }

  function Warn(s: Session, w: Warning): Outcome { Outcome(s, [w], None) }

  function Throw(s: Session, f: Fatal): Outcome { Outcome(s, [], Some(f)) }

  datatype Handler =
    | Login | Logout
    | GetContName | GetContNo | GetContVer | GetContType | GetContDev
    | GetSubnetMask | GetDefaultGateway | GetContMacAdd | GetCameraModel
    | GetPrjName | GetErrMsg | GetCurRobot | GetCpuLoad
    | GetRobotName | GetRobotSerial | GetContSettings | GetHofs | GetHealthCont
    | GetPartWarning | GetHealthRB | GetRobotInfo | GetStatus | GetErrFunc | GetMotor

  /** The `parsers` table: the handler for a reply's first field, if any. */
  function HandlerFor(name: string): Option<Handler>
  {
    match name
    case "#Login" => Some(Login)
    case "#Logout" => Some(Logout)
    case "#GetContName" => Some(GetContName)
    case "#GetContNo" => Some(GetContNo)
    case "#GetContVer" => Some(GetContVer)
    case "#GetContType" => Some(GetContType)
    case "#GetContDev" => Some(GetContDev)
    case "#GetSubnetMask" => Some(GetSubnetMask)
    case "#GetDefaultGateway" => Some(GetDefaultGateway)
    case "#GetContMacAdd" => Some(GetContMacAdd)
    case "#GetCameraModel" => Some(GetCameraModel)
    case "#GetPrjName" => Some(GetPrjName)
    case "#GetErrMsg" => Some(GetErrMsg)
    case "#GetCurRobot" => Some(GetCurRobot)
    case "#GetCpuLoad" => Some(GetCpuLoad)
    case "#GetRobotName" => Some(GetRobotName)
    case "#GetRobotSerial" => Some(GetRobotSerial)
    case "#GetContSettings" => Some(GetContSettings)
    case "#GetHofs" => Some(GetHofs)
    case "#GetHealthCont" => Some(GetHealthCont)
    case "#GetPartWarning" => Some(GetPartWarning)
    case "#GetHealthRB" => Some(GetHealthRB)
    case "#GetRobotInfo" => Some(GetRobotInfo)
    case "#GetStatus" => Some(GetStatus)
    case "#GetErrFunc" => Some(GetErrFunc)
    case "#GetMotor" => Some(GetMotor)
    case _ => None
  }

  // ---------------------------------------------------------------------------
  // Per-robot updates used by the count-checked handlers

  /** The stated robot count (field 1) equals the current robot list's length. */
  predicate CountMatches(s: Session, arr: seq<string>)
  {
    ToNumber(Field(arr, 1)) == Int(|s.robots|)
  }

  /** The three replies that carry one entry per robot, after a count. */
  datatype PerRobotReply = Names | Serials | Motors

  /** What such a reply writes into robot i: field i+2, or fields 2i+2 and 2i+3 for motors. */
  function PerRobot(q: PerRobotReply, r: Robot, arr: seq<string>, i: nat): Robot
  {
    match q
    case Names => r.(name := Field(arr, i + 2))
    case Serials => r.(serial := Field(arr, i + 2))
    case Motors => r.(status := Some(MotorStatus(Truthy(Field(arr, 2 * i + 2)), Truthy(Field(arr, 2 * i + 3)))))
  }

  function WithEach(q: PerRobotReply, rs: seq<Robot>, arr: seq<string>): (r: seq<Robot>)
    ensures |r| == |rs|
  {
    seq(|rs|, i requires 0 <= i < |rs| => PerRobot(q, rs[i], arr, i))
  }

  /** A robot record as `$GetRobotInfo` creates it, for the i-th (0-based) robot of the reply. */
  function NewRobot(arr: seq<string>, i: nat): Robot
  {
    var model := Field(arr, 2 * i + 3);
    var t := RobotTypeOf(Field(arr, 2 * i + 2));
    Robot(
      number := i + 1, name := Some(""), rtype := t, model := model,
      joints := JointsNumber(t, Str(model)), series := SeriesName(Str(model)),
      serial := Some(""), hofs := [], warnings := None, health := map[], status := None)
  }

  /** How many times `for (let i=0; i<num; i++)` runs for `num = Number(field 1)`. */
  function InventoryCount(arr: seq<string>): nat
  {
    match ToNumber(Field(arr, 1))
    case Int(v) => if v > 0 then v else 0
    case NaN => 0
  }

  function Inventory(arr: seq<string>): (r: seq<Robot>)
    ensures |r| == InventoryCount(arr)
  {
    seq(InventoryCount(arr), i requires 0 <= i < InventoryCount(arr) => NewRobot(arr, i))
  }

  function Numbers(fields: seq<string>): (r: seq<Number>)
    ensures |r| == |fields|
  {
    seq(|fields|, i requires 0 <= i < |fields| => ToNumber(Some(fields[i])))
  }

  /** Field values a `$GetHofs` reply stores for a robot with the given joint count. */
  function HofsFields(arr: seq<string>, joints: Option<nat>): seq<string>
    requires |arr| >= 1
  {
    match joints
    case None => arr[1..]
    case Some(j) => arr[1..if j + 1 < |arr| then j + 1 else |arr|]
  }

  /** `healthRobotPartTypes[n]` used as a property name (undefined reads "undefined"). */
  function PartName(n: Option<nat>): string
  {
    match n
    case Some(1) => "backupBattery"
    case Some(2) => "belt"
    case Some(3) => "grease"
    case Some(4) => "motor"
    case Some(5) => "gear"
    case Some(6) => "ballScrew"
    case _ => "undefined"
  }

  /** The joint key of a `$GetHealthRB` record: "common" for part type 1, else "joint" + the third digit. */
  function JointKey(digits: seq<nat>): string
  {
    if |digits| > 1 && digits[1] == 1 then "common"
    else "joint" + (if |digits| > 2 then NatToString(digits[2]) else "undefined")
  }

  function SetRobot(s: Session, k: nat, r: Robot): Session
    requires k < |s.robots|
  {
    s.(robots := s.robots[k := r])
  }

  // ---------------------------------------------------------------------------
  // Handlers

  /** All or nothing: every robot is updated when the count matches, none otherwise. */
  function ParseCounted(q: PerRobotReply, s: Session, arr: seq<string>): Outcome
  {
    if CountMatches(s, arr) then Done(s.(robots := WithEach(q, s.robots, arr)))
    else Warn(s, CountMismatch(Field(arr, 1), |s.robots|, q == Motors))
  }

  function ParseHofs(s: Session, arr: seq<string>): Outcome
    requires |arr| >= 1
  {
    var n := FirstDigit(s.lastCommand);
    if n < 1 || n > |s.robots| then Throw(s, Fault(NoRobotAt(n - 1)))
    else
      var r := s.robots[n - 1];
      Done(SetRobot(s, n - 1, r.(hofs := Numbers(HofsFields(arr, r.joints)))))
  }

  function ParseHealthCont(s: Session, arr: seq<string>): Outcome
  {
    var c := s.controller;
    match Field(arr, 1)
    case Some("-1") => Done(s.(controller := c.(health := NoBattery)))
    case None =>
      var created := if c.health == NoBattery then EmptyBattery else c.health;
      Throw(s.(controller := c.(health := created)), Fault(MissingField(1)))
    case Some(installed) =>
      var p := PartHealth(DateTimeToIso(installed), ToNumber(Field(arr, 2)), ToNumber(Field(arr, 3)));
      Done(s.(controller := c.(health := Battery(p))))
  }

  function ParsePartWarning(s: Session, arr: seq<string>): Outcome
  {
    var n := FirstDigit(s.lastCommand);
    if n < 1 || n > |s.robots| then Throw(s, Fault(NoRobotAt(n - 1)))
    else
      var w := PartWarnings(
        Truthy(Field(arr, 1)), Truthy(Field(arr, 2)), Truthy(Field(arr, 3)),
        Truthy(Field(arr, 4)), Truthy(Field(arr, 5)), Truthy(Field(arr, 6)));
      Done(SetRobot(s, n - 1, s.robots[n - 1].(warnings := Some(w))))
  }

  /** The health tree with one (joint, part) entry set. */
  function StoreHealth(h: map<string, map<string, PartHealth>>, joint: string, part: string, p: PartHealth)
    : map<string, map<string, PartHealth>>
  {
    var parts := if joint in h then h[joint] else map[];
    h[joint := parts[part := p]]
  }

  function ParseHealthRB(s: Session, arr: seq<string>): Outcome
  {
    if Field(arr, 1) == Some("-1") then Done(s)
    else
      var ds := Digits(s.lastCommand);
      if |ds| == 0 then Throw(s, Fault(NoDigitsInCommand))
      else if Field(arr, 1).None? then Throw(s, Fault(MissingField(1)))
      else
        var p := PartHealth(DateTimeToIso(arr[1]), ToNumber(Field(arr, 2)), ToNumber(Field(arr, 3)));
        var part := PartName(if |ds| > 1 then Some(ds[1]) else None);
        var joint := JointKey(ds);
        var n := ds[0];
        if n < 1 || n > |s.robots| then Throw(s, Fault(NoRobotAt(n - 1)))
        else
          var r := s.robots[n - 1];
          Done(SetRobot(s, n - 1, r.(health := StoreHealth(r.health, joint, part, p))))
  }

  function ParseStatus(s: Session, arr: seq<string>): Outcome
  {
    var bits := BitsOf(ParseBinary(Field(arr, 1)));
    var code := Field(arr, 2);
    var st := s.controller.status.(errCode := code, phase := Some(DecodePhase(bits)),
                                   signal := Some(DecodeSignals(bits)));
    var st' := if code == Some("0000") then st.(errMsg := Some(""), errFunc := None) else st;
    Done(s.(controller := s.controller.(status := st')))
  }

  function ParseErrFunc(s: Session, arr: seq<string>): Outcome
  {
    var st := s.controller.status;
    if Field(arr, 1) == Some("0") then Done(s.(controller := s.controller.(status := st.(errFunc := None))))
    else if Field(arr, 1).None? then Throw(s, Fault(MissingField(1)))
    else if Field(arr, 5).None? then Throw(s, Fault(MissingField(5)))
    else
      var f := ErrFunc(Trim(arr[1]), ToNumber(Field(arr, 2)), ToNumber(Field(arr, 3)),
                       ToNumber(Field(arr, 4)), DateTimeToIso(arr[5]));
      Done(s.(controller := s.controller.(status := st.(errFunc := Some(f)))))
  }

  function ParseContVer(s: Session, arr: seq<string>): Outcome
  {
    match Field(arr, 1)
    case None => Throw(s, Fault(MissingField(1)))
    case Some(v) => Done(s.(controller := s.controller.(firmware := RemoveSpaces(v))))
  }

  /**
   * What every handler leaves alone: the connection flag and the last command
   * and reply; it emits at most one warning, and none when it throws.
   */
  predicate Keeps(s: Session, o: Outcome)
  {
    && o.session.connected == s.connected
    && o.session.lastCommand == s.lastCommand
    && o.session.lastResponse == s.lastResponse
    && |o.warnings| <= 1
    && (o.fatal.Some? ==> o.warnings == [])
  }

  /** The handlers that do not go through the robot list. */
  predicate SetsOneField(h: Handler)
  {
    !(h.GetRobotName? || h.GetRobotSerial? || h.GetHofs? || h.GetHealthCont? || h.GetPartWarning?
      || h.GetHealthRB? || h.GetRobotInfo? || h.GetStatus? || h.GetErrFunc? || h.GetMotor?)
  }

  /** The handler selected by the reply's name, applied to the state and fields. */
  function Handle(h: Handler, s: Session, arr: seq<string>): (o: Outcome)
    requires |arr| >= 1
    ensures Keeps(s, o)
  {
    if SetsOneField(h) then HandleField(h, s, arr) else HandleRobots(h, s, arr)
  }

  /** The handlers that read or write the robot list. */
  function HandleRobots(h: Handler, s: Session, arr: seq<string>): (o: Outcome)
    requires |arr| >= 1 && !SetsOneField(h)
    ensures Keeps(s, o)
  {
    match h
    case GetRobotName => ParseCounted(Names, s, arr)
    case GetRobotSerial => ParseCounted(Serials, s, arr)
    case GetHofs => ParseHofs(s, arr)
    case GetHealthCont => ParseHealthCont(s, arr)
    case GetPartWarning => ParsePartWarning(s, arr)
    case GetHealthRB => ParseHealthRB(s, arr)
    case GetRobotInfo => Done(s.(robots := Inventory(arr)))
    case GetStatus => ParseStatus(s, arr)
    case GetErrFunc => ParseErrFunc(s, arr)
    case GetMotor => ParseCounted(Motors, s, arr)
  }

  /** The handlers that set one field of the session or of the controller. */
  function HandleField(h: Handler, s: Session, arr: seq<string>): (o: Outcome)
    requires |arr| >= 1 && SetsOneField(h)
    ensures Keeps(s, o) && o.session.robots == s.robots && o.warnings == []
  {
    var c := s.controller;
    var f1 := Field(arr, 1);
    match h
    case Login => Done(s.(loggedIn := true))
    case Logout => Done(s.(loggedIn := false))
    case GetContName => Done(s.(controller := c.(name := f1)))
    case GetContNo => Done(s.(controller := c.(serial := f1)))
    case GetContVer => ParseContVer(s, arr)
    case GetContType => Done(s.(controller := c.(model := f1)))
    case GetContDev => Done(s.(controller := c.(controlledBy := f1)))
    case GetSubnetMask => Done(s.(controller := c.(network := c.network.(subnetMask := f1))))
    case GetDefaultGateway => Done(s.(controller := c.(network := c.network.(defaultGateway := f1))))
    case GetContMacAdd => Done(s.(controller := c.(network := c.network.(macAddress := f1))))
    case GetCameraModel => Done(s.(controller := c.(camera := f1)))
    case GetPrjName => Done(s.(controller := c.(project := f1)))
    case GetErrMsg => Done(s.(controller := c.(status := c.status.(errMsg := f1))))
    case GetCurRobot => Done(s.(controller := c.(status := c.status.(currentRobot := Some(ToNumber(f1))))))
    case GetCpuLoad => Done(s.(controller := c.(status := c.status.(cpuLoad := Some(ToNumber(f1))))))
    case GetContSettings => Done(s.(controller := c.(preferences := Some(DecodePreferences(BitsOf(ParseBinary(f1)))))))
  }

  /** A reply's first field starts with `#`. */
  predicate IsSuccess(res: string)
  {
    StartsWith(Split(res, ',')[0], "#")
  }

  /** A reply's first field starts with `!`. */
  predicate IsErrorReply(res: string)
  {
    StartsWith(Split(res, ',')[0], "!")
  }

  /** `_parseResponse(res)`. */
  function Parse(s: Session, res: string): (o: Outcome)
    ensures Keeps(s.(lastResponse := res), o)
  {
    var s1 := s.(lastResponse := res);
    var arr := Split(res, ',');
    if !IsSuccess(res) then
      var code := Field(arr, 1);
      if IsErrorReply(res) then
        if IsLoginFailure(code) then Throw(s1, LoginRejected(res, code))
        else Warn(s1, RemoteCommandError(res, code))
      else Warn(s1, InvalidResponse(res))
    else if HandlerFor(arr[0]).Some? then Handle(HandlerFor(arr[0]).value, s1, arr)
    else Warn(s1, UnsupportedResponse(res))
  }
}
