/**
 * The live state tree of one robot controller session, and the pure decoders
 * the reply handlers use: status bits to phase and signals, the preference
 * bit string, and the controller's date-time text.
 *
 * Lazily created parts of the tree (preferences, warnings, motor status,
 * error function, battery record) are `Option`s: `None` is "not yet known".
 */
module ErcState {
  import opened Js
  import opened RobotModels

  // ---------------------------------------------------------------------------
  // Status word

  datatype Phase = Reset | Ready | Running | Paused | Unknown

  /** `switch (bits & (READY | RUNNING | PAUSED))`. */
  function DecodePhase(bits: int): Phase
  {
    match bits % 8
    case 0 => Reset
    case 1 => Ready
    case 2 => Running
    case 4 => Paused
    case _ => Unknown
  }

  /** The three low bits of v are exactly v % 8. */
  lemma LowBits(v: int)
    ensures v % 8 == (if Bit(v, 0) then 1 else 0) + (if Bit(v, 1) then 2 else 0) + (if Bit(v, 2) then 4 else 0)
  {
    assert Pow2(0) == 1 && Pow2(1) == 2 && Pow2(2) == 4;
    var q, r := v / 8, v % 8;
    DivUnique(v, 2, 4 * q + r / 2, r % 2);
    DivUnique(v, 4, 2 * q + r / 4, r % 4);
    DivUnique(4 * q + r / 2, 2, 2 * q + r / 4, (r / 2) % 2);
    DivUnique(2 * q + r / 4, 2, q, r / 4);
    assert r == r % 2 + 2 * ((r / 2) % 2) + 4 * (r / 4);
  }

  /**
   * Phase is decided by the READY, RUNNING and PAUSED bits alone: none set is
   * Reset, exactly one set names its phase, and two or more set is Unknown.
   */
  lemma PhaseFromBits(bits: int)
    ensures var rdy, run, pau := Bit(bits, 0), Bit(bits, 1), Bit(bits, 2);
      && (DecodePhase(bits) == Reset <==> !rdy && !run && !pau)
      && (DecodePhase(bits) == Ready <==> rdy && !run && !pau)
      && (DecodePhase(bits) == Running <==> !rdy && run && !pau)
      && (DecodePhase(bits) == Paused <==> !rdy && !run && pau)
      && (DecodePhase(bits) == Unknown <==>
            (if rdy then 1 else 0) + (if run then 1 else 0) + (if pau then 1 else 0) >= 2)
  {
    LowBits(bits);
  }

  /** The eight signal lamps of the status word. */
  datatype Signals = Signals(
    error: bool, emergencyStop: bool, safeguard: bool, systemError: bool,
    warning: bool, auto: bool, teach: bool, test: bool)

  /** Bits 3 to 10 of the status word. */
  function DecodeSignals(bits: int): Signals
  {
    Signals(Bit(bits, 3), Bit(bits, 4), Bit(bits, 5), Bit(bits, 6),
            Bit(bits, 7), Bit(bits, 8), Bit(bits, 9), Bit(bits, 10))
  }

  // ---------------------------------------------------------------------------
  // Preferences

  datatype Preferences = Preferences(
    resetCommandTurnsOffOutputs: bool,
    outputsOffDuringEmergencyStop: bool,
    allowMotionWithOneOrMoreJointsFree: bool,
    walkStopsForOutputCommands: bool,
    dryRun: bool,
    virtualIO: bool,
    includeProjectFilesWhenStatusExported: bool,
    safeguardOpenStopsAllTasks: bool,
    independentMode: bool,
    clearGlobalsWhenMainXXFunctionStarted: bool,
    enableBackgroundTasks: bool,
    enableAdvancedTaskCommands: bool,
    enableCpPtpConnectionWhenCpIsOn: bool,
    autoLjm: bool,
    disableLjmInTeachMode: bool,
    disablePointFlagsCheck: bool,
    motorOffWhenEnableSwitchOffInTeachMode: bool,
    enableRobotMaintenanceData: bool,
    reversePolarityForForcePowerLowRemoteInput: bool,
    tasksArePausedWhenForcePowerLowIsChanged: bool,
    disableT2Test: bool)

  /**
   * The `$GetContSettings` bit string decoded. Two flags are computed as
   * `Boolean(~(bits & mask))`, which is never false: the model keeps that.
   */
  function DecodePreferences(bits: int): Preferences
  {
    Preferences(
      resetCommandTurnsOffOutputs := Bit(bits, 22),
      outputsOffDuringEmergencyStop := Bit(bits, 21),
      allowMotionWithOneOrMoreJointsFree := Bit(bits, 17),
      walkStopsForOutputCommands := Bit(bits, 18),
      dryRun := Bit(bits, 20),
      virtualIO := Bit(bits, 16),
      includeProjectFilesWhenStatusExported := Bit(bits, 2),
      safeguardOpenStopsAllTasks := Bit(bits, 15),
      independentMode := BitNot(Masked(bits, 1)) != 0,
      clearGlobalsWhenMainXXFunctionStarted := BitNot(Masked(bits, 13)) != 0,
      enableBackgroundTasks := Bit(bits, 0),
      enableAdvancedTaskCommands := Bit(bits, 14),
      enableCpPtpConnectionWhenCpIsOn := Bit(bits, 19),
      autoLjm := Bit(bits, 9),
      disableLjmInTeachMode := Bit(bits, 7),
      disablePointFlagsCheck := Bit(bits, 8),
      motorOffWhenEnableSwitchOffInTeachMode := Bit(bits, 11),
      enableRobotMaintenanceData := Bit(bits, 6),
      reversePolarityForForcePowerLowRemoteInput := Bit(bits, 5),
      tasksArePausedWhenForcePowerLowIsChanged := Bit(bits, 4),
      disableT2Test := Bit(bits, 3))
  }

  /** The two flags meant as "bit set = disabled" read true for every input. */
  lemma InvertedFlagsAlwaysTrue(bits: int)
    ensures DecodePreferences(bits).independentMode
    ensures DecodePreferences(bits).clearGlobalsWhenMainXXFunctionStarted
  {
    assert Masked(bits, 1) >= 0 && Masked(bits, 13) >= 0;
  }

  /** Every bit of the parsed field is the matching character of the binary text. */
  lemma BitsOfText(b: string)
    requires IsBinaryText(b)
    ensures forall k: nat :: Bit(BitsOf(ParseBinary(Some(b))), k) <==> BitChar(b, k)
  {
    if |b| > 0 {
      ParseBinaryText(b);
      forall k: nat
        ensures Bit(BitsOf(ParseBinary(Some(b))), k) <==> BitChar(b, k)
      {
        BinaryBit(b, k);
      }
    } else {
      forall k: nat
        ensures !Bit(0, k)
      {
      }
    }
  }

  /**
   * A `$GetContSettings` bit string read character by character from the
   * right: each preference is its own character, except the two inverted
   * flags, which are true whatever the text.
   */
  lemma PreferencesFromText(b: string)
    requires IsBinaryText(b)
    ensures var p := DecodePreferences(BitsOf(ParseBinary(Some(b))));
      && p.enableBackgroundTasks == BitChar(b, 0)
      && p.independentMode && p.clearGlobalsWhenMainXXFunctionStarted
      && p.includeProjectFilesWhenStatusExported == BitChar(b, 2)
      && p.disableT2Test == BitChar(b, 3)
      && p.tasksArePausedWhenForcePowerLowIsChanged == BitChar(b, 4)
      && p.reversePolarityForForcePowerLowRemoteInput == BitChar(b, 5)
      && p.enableRobotMaintenanceData == BitChar(b, 6)
      && p.disableLjmInTeachMode == BitChar(b, 7)
      && p.disablePointFlagsCheck == BitChar(b, 8)
      && p.autoLjm == BitChar(b, 9)
      && p.motorOffWhenEnableSwitchOffInTeachMode == BitChar(b, 11)
      && p.enableAdvancedTaskCommands == BitChar(b, 14)
      && p.safeguardOpenStopsAllTasks == BitChar(b, 15)
      && p.virtualIO == BitChar(b, 16)
      && p.allowMotionWithOneOrMoreJointsFree == BitChar(b, 17)
      && p.walkStopsForOutputCommands == BitChar(b, 18)
      && p.enableCpPtpConnectionWhenCpIsOn == BitChar(b, 19)
      && p.dryRun == BitChar(b, 20)
      && p.outputsOffDuringEmergencyStop == BitChar(b, 21)
      && p.resetCommandTurnsOffOutputs == BitChar(b, 22)
  {
    BitsOfText(b);
    InvertedFlagsAlwaysTrue(BitsOf(ParseBinary(Some(b))));
  }

  /**
   * A `$GetStatus` bit string: the phase is decided by its last three
   * characters and signal k by character k + 3 from the right.
   */
  lemma StatusFromText(b: string)
    requires IsBinaryText(b)
    ensures var bits := BitsOf(ParseBinary(Some(b)));
      && (DecodePhase(bits) == Reset <==> !BitChar(b, 0) && !BitChar(b, 1) && !BitChar(b, 2))
      && (DecodePhase(bits) == Ready <==> BitChar(b, 0) && !BitChar(b, 1) && !BitChar(b, 2))
      && (DecodePhase(bits) == Running <==> !BitChar(b, 0) && BitChar(b, 1) && !BitChar(b, 2))
      && (DecodePhase(bits) == Paused <==> !BitChar(b, 0) && !BitChar(b, 1) && BitChar(b, 2))
      && DecodeSignals(bits) == Signals(BitChar(b, 3), BitChar(b, 4), BitChar(b, 5), BitChar(b, 6),
                                        BitChar(b, 7), BitChar(b, 8), BitChar(b, 9), BitChar(b, 10))
  {
    BitsOfText(b);
    PhaseFromBits(BitsOf(ParseBinary(Some(b))));
  }

  // ---------------------------------------------------------------------------
  // Date-time text

  /** `dateTimeStringToIso`: every '/' becomes '-', the first ' ' becomes 'T', and 'Z' is appended. */
  function DateTimeToIso(s: string): string
  {
    ReplaceFirst(ReplaceAll(s, '/', '-'), ' ', 'T') + "Z"
  }

  /** The controller's "YYYY/MM/DD HH:MM:SS" layout. */
  predicate IsControllerDateTime(s: string)
  {
    && |s| == 19
    && (forall i :: 0 <= i < 19 && i !in {4, 7, 10, 13, 16} ==> IsDigit(s[i]))
    && s[4] == '/' && s[7] == '/' && s[10] == ' ' && s[13] == ':' && s[16] == ':'
  }

  /** The ISO-8601 "YYYY-MM-DDTHH:MM:SSZ" layout. */
  predicate IsIsoInstant(s: string)
  {
    && |s| == 20
    && (forall i :: 0 <= i < 19 && i !in {4, 7, 10, 13, 16} ==> IsDigit(s[i]))
    && s[4] == '-' && s[7] == '-' && s[10] == 'T' && s[13] == ':' && s[16] == ':' && s[19] == 'Z'
  }

  /** A controller date-time becomes an ISO instant with the same digits in the same places. */
  lemma DateTimeToIsoLayout(s: string)
    requires IsControllerDateTime(s)
    ensures IsIsoInstant(DateTimeToIso(s))
    ensures forall i :: 0 <= i < 19 && IsDigit(s[i]) ==> DateTimeToIso(s)[i] == s[i]
  {
    var a := ReplaceAll(s, '/', '-');
    ReplaceAllChars(s, '/', '-');
    assert ' ' !in a[..10];
    var b := ReplaceFirst(a, ' ', 'T');
    ReplaceFirstChars(a, ' ', 'T');
    assert b[10] == 'T';
  }

  /** Only the first space is rewritten: a second one stays in the result. */
  lemma DateTimeToIsoFirstSpaceOnly(s: string, i: nat, j: nat)
    requires i < j < |s| && s[i] == ' ' && s[j] == ' '
    ensures DateTimeToIso(s)[j] == ' '
  {
    var a := ReplaceAll(s, '/', '-');
    ReplaceAllChars(s, '/', '-');
    ReplaceFirstChars(a, ' ', 'T');
    assert a[i] == ' ' && a[..j][i] == ' ';
  }

  // ---------------------------------------------------------------------------
  // The state tree

  /** Maintenance data of one part; `installed` keeps the ISO text handed to `Date.parse`. */
  datatype PartHealth = PartHealth(installed: string, consumption: Number, monthsRemaining: Number)

  /** `controller.health.backupBattery`: absent, created empty, or recorded. */
  datatype BatterySlot = NoBattery | EmptyBattery | Battery(record: PartHealth)

  datatype PartWarnings = PartWarnings(
    backupBattery: bool, belt: bool, grease: bool, motor: bool, gear: bool, ballScrew: bool)

  datatype MotorStatus = MotorStatus(motorExcitation: bool, powerHigh: bool)

  datatype ErrFunc = ErrFunc(name: string, lineNo: Number, taskNo: Number, robotNo: Number, occurred: string)

  datatype Robot = Robot(
    number: nat,
    name: Option<string>,
    rtype: Option<RobotType>,
    model: Option<string>,
    joints: Option<nat>,
    series: string,
    serial: Option<string>,
    hofs: seq<Number>,
    warnings: Option<PartWarnings>,
    health: map<string, map<string, PartHealth>>,
    status: Option<MotorStatus>)

  datatype Network = Network(
    host: string, port: string, address: Option<string>,
    subnetMask: Option<string>, defaultGateway: Option<string>, macAddress: Option<string>)

  datatype Status = Status(
    signal: Option<Signals>,
    phase: Option<Phase>,
    errCode: Option<string>,
    errMsg: Option<string>,
    errFunc: Option<ErrFunc>,
    currentRobot: Option<Number>,
    cpuLoad: Option<Number>)

  datatype Controller = Controller(
    name: Option<string>,
    model: Option<string>,
    serial: Option<string>,
    firmware: string,
    network: Network,
    preferences: Option<Preferences>,
    health: BatterySlot,
    project: Option<string>,
    controlledBy: Option<string>,
    camera: Option<string>,
    status: Status)

  /** Everything `EpsonRCState.state` holds. */
  datatype Session = Session(
    connected: bool,
    loggedIn: bool,
    lastCommand: string,
    lastResponse: string,
    controller: Controller,
    robots: seq<Robot>)

  /** The state a fresh instance starts from. */
  function InitialSession(host: string, port: string): Session
  {
    Session(
      connected := false, loggedIn := false, lastCommand := "", lastResponse := "",
      controller := Controller(
        name := Some(""), model := Some(""), serial := Some(""), firmware := "",
        network := Network(host, port, Some(""), Some(""), Some(""), Some("")),
        preferences := None, health := NoBattery, project := None,
        controlledBy := Some(""), camera := None,
        status := Status(None, None, Some(""), Some(""), None, None, None)),
      robots := [])
  }
}
