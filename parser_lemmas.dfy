/**
 * What `_parseResponse` promises, reply kind by reply kind: which part of
 * the state tree a reply touches, what it stores there, and what it leaves
 * alone.
 */
module ParserLemmas {
  import opened Js
  import opened Codec
  import opened RobotModels
  import opened ErcState
  import opened Parser

  /** The reply text a controller sends: a name and its fields, comma separated. */
  function Reply(name: string, fields: seq<string>): string
  {
    Join([name] + fields, ',')
  }

  predicate NoComma(fields: seq<string>)
  {
    forall i :: 0 <= i < |fields| ==> ',' !in fields[i]
  }

  /** A reply built from comma-free parts splits back into exactly those parts. */
  lemma ReplyFields(name: string, fields: seq<string>)
    requires ',' !in name && NoComma(fields)
    ensures Split(Reply(name, fields), ',') == [name] + fields
  {
    var all := [name] + fields;
    assert forall i :: 0 <= i < |all| ==> ',' !in all[i] by {
      forall i | 0 <= i < |all|
        ensures ',' !in all[i]
      {
        if i > 0 {
          assert all[i] == fields[i - 1];
        }
      }
    }
    JoinSplit(all, ',');
  }

  /** A reply whose first field names a handler is given to that handler. */
  lemma Dispatch(s: Session, res: string, name: string)
    requires Split(res, ',')[0] == name && HandlerFor(name).Some? && StartsWith(name, "#")
    ensures Parse(s, res) == Handle(HandlerFor(name).value, s.(lastResponse := res), Split(res, ','))
  {
  }

  // ---------------------------------------------------------------------------
  // Replies that are not successes

  /**
   * A reply not starting with `#` changes nothing but `lastResponse`. A `!`
   * reply is fatal exactly when its second field is 13 or 98; any other `!`
   * reply and any other prefix give exactly one warning.
   */
  lemma NonSuccessReply(s: Session, res: string)
    requires !IsSuccess(res)
    ensures var o := Parse(s, res);
      var code := Field(Split(res, ','), 1);
      && o.session == s.(lastResponse := res)
      && (o.fatal.Some? <==> IsErrorReply(res) && IsLoginFailure(code))
      && (o.fatal.Some? ==> o.fatal == Some(LoginRejected(res, code)) && o.warnings == [])
      && (IsErrorReply(res) && !IsLoginFailure(code) ==> o.warnings == [RemoteCommandError(res, code)])
      && (!IsErrorReply(res) ==> o.warnings == [InvalidResponse(res)])
  {
  }

  /**
   * The `!<command>,<code>` reply of the protocol: only codes 13 (wrong
   * password) and 98 (password required) are fatal, and their text carries
   * the table's message; any other code is a warning whose text carries the
   * code's message, if the table has one.
   */
  lemma ErrorReplyCode(s: Session, command: string, code: string, rest: seq<string>)
    requires ',' !in command && ',' !in code && NoComma(rest)
    ensures var res := Reply("!" + command, [code] + rest);
      var o := Parse(s, res);
      && o.session == s.(lastResponse := res)
      && ((code == "13" || code == "98") ==>
            && o.fatal == Some(LoginRejected(res, Some(code))) && o.warnings == []
            && RemoteErrorText(res, Some(code)) == "Remote command: " + res + ": " + RemoteCommandErrMsg[code])
      && (code != "13" && code != "98" ==>
            && o.fatal == None && o.warnings == [RemoteCommandError(res, Some(code))]
            && WarningText(o.warnings[0]) ==
                 "Remote command: " + res + ": " + (if code in RemoteCommandErrMsg then RemoteCommandErrMsg[code] else "undefined"))
  {
    var res := Reply("!" + command, [code] + rest);
    ReplyFields("!" + command, [code] + rest);
    assert Split(res, ',')[0] == "!" + command;
    assert StartsWith("!" + command, "!") && !StartsWith("!" + command, "#");
    assert Field(Split(res, ','), 1) == Some(code);
    NonSuccessReply(s, res);
  }

  /**
   * A `!` reply without a comma, such as a bare `!13`, has no code field:
   * it is never fatal, only a warning without a message.
   */
  lemma BareErrorReply(s: Session, res: string)
    requires StartsWith(res, "!") && ',' !in res
    ensures Parse(s, res) == Outcome(s.(lastResponse := res), [RemoteCommandError(res, None)], None)
  {
    SplitNoSeparator(res, ',');
    assert Field(Split(res, ','), 1) == None;
    NonSuccessReply(s, res);
  }

  /** A `#` reply whose name has no handler gives one warning and changes nothing else. */
  lemma UnsupportedReply(s: Session, res: string)
    requires IsSuccess(res) && HandlerFor(Split(res, ',')[0]).None?
    ensures Parse(s, res) == Outcome(s.(lastResponse := res), [UnsupportedResponse(res)], None)
  {
  }

  // ---------------------------------------------------------------------------
  // Plain-value replies

  /** `#Login` sets `loggedIn` and touches nothing else. */
  lemma LoginReply(s: Session, res: string)
    requires Split(res, ',')[0] == "#Login"
    ensures Parse(s, res) == Done(s.(lastResponse := res, loggedIn := true))
  {
    Dispatch(s, res, "#Login");
  }

  /** `#Logout` clears `loggedIn` and touches nothing else. */
  lemma LogoutReply(s: Session, res: string)
    requires Split(res, ',')[0] == "#Logout"
    ensures Parse(s, res) == Done(s.(lastResponse := res, loggedIn := false))
  {
    Dispatch(s, res, "#Logout");
  }

  /**
   * `#GetContVer`: the firmware is field 1 with every whitespace character
   * removed; a reply without field 1 is a fault that changes nothing.
   */
  lemma ContVerReply(s: Session, res: string)
    requires Split(res, ',')[0] == "#GetContVer"
    ensures var arr := Split(res, ',');
      var o := Parse(s, res);
      && o.warnings == []
      && (|arr| < 2 ==> o.session == s.(lastResponse := res) && o.fatal == Some(Fault(MissingField(1))))
      && (|arr| >= 2 ==>
            && o.fatal == None
            && o.session == s.(lastResponse := res, controller := s.controller.(firmware := o.session.controller.firmware))
            && (forall i :: 0 <= i < |o.session.controller.firmware| ==> !IsSpace(o.session.controller.firmware[i]))
            && ((forall i :: 0 <= i < |arr[1]| ==> !IsSpace(arr[1][i])) ==> o.session.controller.firmware == arr[1]))
  {
    ContVerRoute(s, res);
    var arr := Split(res, ',');
    if |arr| >= 2 {
      RemoveSpacesClean(arr[1]);
      RemoveSpacesKeepsClean(arr[1]);
    }
  }

  /** A `#GetContVer` reply is given to the field handler of that name. */
  lemma ContVerRoute(s: Session, res: string)
    requires Split(res, ',')[0] == "#GetContVer"
    ensures Parse(s, res) == HandleField(GetContVer, s.(lastResponse := res), Split(res, ','))
  {
    Dispatch(s, res, "#GetContVer");
    assert HandlerFor("#GetContVer") == Some(GetContVer);
  }

  lemma {:induction false} RemoveSpacesKeepsClean(t: string)
    ensures (forall i :: 0 <= i < |t| ==> !IsSpace(t[i])) ==> RemoveSpaces(t) == t
    decreases |t|
  {
    if |t| > 0 {
      RemoveSpacesKeepsClean(t[1..]);
      assert t == [t[0]] + t[1..];
    }
  }

  /**
   * `#GetContSettings` replaces the preferences record, and only it, with the
   * decode of field 1 (see `PreferencesFromText` for each flag).
   */
  lemma ContSettingsReply(s: Session, res: string, b: string)
    requires Split(res, ',')[0] == "#GetContSettings" && Field(Split(res, ','), 1) == Some(b)
    requires IsBinaryText(b)
    ensures var o := Parse(s, res);
      var p := DecodePreferences(BitsOf(ParseBinary(Some(b))));
      && o == Done(s.(lastResponse := res, controller := s.controller.(preferences := Some(p))))
      && p.enableBackgroundTasks == BitChar(b, 0)
      && p.enableAdvancedTaskCommands == BitChar(b, 14)
      && p.dryRun == BitChar(b, 20)
      && p.independentMode && p.clearGlobalsWhenMainXXFunctionStarted
  {
    ContSettingsRoute(s, res);
    ContSettingsStored(s.(lastResponse := res), Split(res, ','), b);
  }

  /**
   * The `#GetContSettings` field handler stores the decoding of field 1 as
   * the preferences; for a binary field the flags equal their bits.
   */
  lemma ContSettingsStored(s: Session, arr: seq<string>, b: string)
    requires |arr| >= 1 && Field(arr, 1) == Some(b) && IsBinaryText(b)
    ensures var p := DecodePreferences(BitsOf(ParseBinary(Some(b))));
      && HandleField(GetContSettings, s, arr) == Done(s.(controller := s.controller.(preferences := Some(p))))
      && p.enableBackgroundTasks == BitChar(b, 0)
      && p.enableAdvancedTaskCommands == BitChar(b, 14)
      && p.dryRun == BitChar(b, 20)
      && p.independentMode && p.clearGlobalsWhenMainXXFunctionStarted
  {
    PreferencesFromText(b);
  }

  /** A `#GetContSettings` reply is given to the field handler of that name. */
  lemma ContSettingsRoute(s: Session, res: string)
    requires Split(res, ',')[0] == "#GetContSettings"
    ensures Parse(s, res) == HandleField(GetContSettings, s.(lastResponse := res), Split(res, ','))
  {
    Dispatch(s, res, "#GetContSettings");
    assert HandlerFor("#GetContSettings") == Some(GetContSettings);
  }

  // ---------------------------------------------------------------------------
  // Replies that set one controller field to field 1 (undefined when missing)

  /** `#GetContName` sets the controller name to field 1; nothing else changes. */
  lemma ContNameReply(s: Session, res: string)
    requires Split(res, ',')[0] == "#GetContName"
    ensures var f1, c := Field(Split(res, ','), 1), s.controller;
      Parse(s, res) == Done(s.(lastResponse := res, controller := c.(name := f1)))
  {
    Dispatch(s, res, "#GetContName");
    assert HandlerFor("#GetContName") == Some(GetContName);
  }

  /** `#GetContNo` sets the controller serial number to field 1; nothing else changes. */
  lemma ContNoReply(s: Session, res: string)
    requires Split(res, ',')[0] == "#GetContNo"
    ensures var f1, c := Field(Split(res, ','), 1), s.controller;
      Parse(s, res) == Done(s.(lastResponse := res, controller := c.(serial := f1)))
  {
    Dispatch(s, res, "#GetContNo");
    assert HandlerFor("#GetContNo") == Some(GetContNo);
  }

  /** `#GetContType` sets the controller model to field 1; nothing else changes. */
  lemma ContTypeReply(s: Session, res: string)
    requires Split(res, ',')[0] == "#GetContType"
    ensures var f1, c := Field(Split(res, ','), 1), s.controller;
      Parse(s, res) == Done(s.(lastResponse := res, controller := c.(model := f1)))
  {
    Dispatch(s, res, "#GetContType");
    assert HandlerFor("#GetContType") == Some(GetContType);
  }

  /** `#GetContDev` sets the controlling device to field 1; nothing else changes. */
  lemma ContDevReply(s: Session, res: string)
    requires Split(res, ',')[0] == "#GetContDev"
    ensures var f1, c := Field(Split(res, ','), 1), s.controller;
      Parse(s, res) == Done(s.(lastResponse := res, controller := c.(controlledBy := f1)))
  {
    Dispatch(s, res, "#GetContDev");
    assert HandlerFor("#GetContDev") == Some(GetContDev);
  }

  /** `#GetSubnetMask` sets the subnet mask to field 1; nothing else changes. */
  lemma SubnetMaskReply(s: Session, res: string)
    requires Split(res, ',')[0] == "#GetSubnetMask"
    ensures var f1, c := Field(Split(res, ','), 1), s.controller;
      Parse(s, res) == Done(s.(lastResponse := res, controller := c.(network := c.network.(subnetMask := f1))))
  {
    Dispatch(s, res, "#GetSubnetMask");
    assert HandlerFor("#GetSubnetMask") == Some(GetSubnetMask);
  }

  /** `#GetDefaultGateway` sets the default gateway to field 1; nothing else changes. */
  lemma DefaultGatewayReply(s: Session, res: string)
    requires Split(res, ',')[0] == "#GetDefaultGateway"
    ensures var f1, c := Field(Split(res, ','), 1), s.controller;
      Parse(s, res) == Done(s.(lastResponse := res, controller := c.(network := c.network.(defaultGateway := f1))))
  {
    Dispatch(s, res, "#GetDefaultGateway");
    assert HandlerFor("#GetDefaultGateway") == Some(GetDefaultGateway);
  }

  /** `#GetContMacAdd` sets the MAC address to field 1; nothing else changes. */
  lemma MacAddressReply(s: Session, res: string)
    requires Split(res, ',')[0] == "#GetContMacAdd"
    ensures var f1, c := Field(Split(res, ','), 1), s.controller;
      Parse(s, res) == Done(s.(lastResponse := res, controller := c.(network := c.network.(macAddress := f1))))
  {
    Dispatch(s, res, "#GetContMacAdd");
    assert HandlerFor("#GetContMacAdd") == Some(GetContMacAdd);
  }

  /** `#GetCameraModel` sets the camera model to field 1; nothing else changes. */
  lemma CameraModelReply(s: Session, res: string)
    requires Split(res, ',')[0] == "#GetCameraModel"
    ensures var f1, c := Field(Split(res, ','), 1), s.controller;
      Parse(s, res) == Done(s.(lastResponse := res, controller := c.(camera := f1)))
  {
    Dispatch(s, res, "#GetCameraModel");
    assert HandlerFor("#GetCameraModel") == Some(GetCameraModel);
  }

  /** `#GetPrjName` sets the project name to field 1; nothing else changes. */
  lemma ProjectNameReply(s: Session, res: string)
    requires Split(res, ',')[0] == "#GetPrjName"
    ensures var f1, c := Field(Split(res, ','), 1), s.controller;
      Parse(s, res) == Done(s.(lastResponse := res, controller := c.(project := f1)))
  {
    Dispatch(s, res, "#GetPrjName");
    assert HandlerFor("#GetPrjName") == Some(GetPrjName);
  }

  /** `#GetErrMsg` sets the error message to field 1; nothing else changes. */
  lemma ErrMsgReply(s: Session, res: string)
    requires Split(res, ',')[0] == "#GetErrMsg"
    ensures var f1, c := Field(Split(res, ','), 1), s.controller;
      Parse(s, res) == Done(s.(lastResponse := res, controller := c.(status := c.status.(errMsg := f1))))
  {
    Dispatch(s, res, "#GetErrMsg");
    assert HandlerFor("#GetErrMsg") == Some(GetErrMsg);
  }

  /** `#GetCurRobot` sets the current robot, read as a number, to field 1; nothing else changes. */
  lemma CurRobotReply(s: Session, res: string)
    requires Split(res, ',')[0] == "#GetCurRobot"
    ensures var f1, c := Field(Split(res, ','), 1), s.controller;
      Parse(s, res) == Done(s.(lastResponse := res, controller := c.(status := c.status.(currentRobot := Some(ToNumber(f1))))))
  {
    Dispatch(s, res, "#GetCurRobot");
    assert HandlerFor("#GetCurRobot") == Some(GetCurRobot);
  }

  /** `#GetCpuLoad` sets the CPU load, read as a number, to field 1; nothing else changes. */
  lemma CpuLoadReply(s: Session, res: string)
    requires Split(res, ',')[0] == "#GetCpuLoad"
    ensures var f1, c := Field(Split(res, ','), 1), s.controller;
      Parse(s, res) == Done(s.(lastResponse := res, controller := c.(status := c.status.(cpuLoad := Some(ToNumber(f1))))))
  {
    Dispatch(s, res, "#GetCpuLoad");
    assert HandlerFor("#GetCpuLoad") == Some(GetCpuLoad);
  }

  // ---------------------------------------------------------------------------
  // Status

  /**
   * `#GetStatus,<bits>,<code>`: the code is stored as `errCode`, the phase
   * and the eight signals are read from the bit text, and `errMsg` and
   * `errFunc` are cleared exactly when the code is "0000" (kept otherwise).
   * Robots and all other controller data stay as they were.
   */
  lemma StatusReply(s: Session, res: string, b: string)
    requires Split(res, ',')[0] == "#GetStatus" && Field(Split(res, ','), 1) == Some(b)
    requires IsBinaryText(b)
    ensures var o := Parse(s, res);
      var code := Field(Split(res, ','), 2);
      var st := o.session.controller.status;
      var prev := s.controller.status;
      && o.warnings == [] && o.fatal == None
      && o.session == s.(lastResponse := res, controller := s.controller.(status := st))
      && st.errCode == code
      && st.currentRobot == prev.currentRobot && st.cpuLoad == prev.cpuLoad
      && st.phase.Some?
      && (st.phase == Some(Reset) <==> !BitChar(b, 0) && !BitChar(b, 1) && !BitChar(b, 2))
      && (st.phase == Some(Ready) <==> BitChar(b, 0) && !BitChar(b, 1) && !BitChar(b, 2))
      && (st.phase == Some(Running) <==> !BitChar(b, 0) && BitChar(b, 1) && !BitChar(b, 2))
      && (st.phase == Some(Paused) <==> !BitChar(b, 0) && !BitChar(b, 1) && BitChar(b, 2))
      && st.signal == Some(Signals(BitChar(b, 3), BitChar(b, 4), BitChar(b, 5), BitChar(b, 6),
                                   BitChar(b, 7), BitChar(b, 8), BitChar(b, 9), BitChar(b, 10)))
      && (code == Some("0000") ==> st.errMsg == Some("") && st.errFunc == None)
      && (code != Some("0000") ==> st.errMsg == prev.errMsg && st.errFunc == prev.errFunc)
  {
    StatusRoute(s, res);
    StatusStored(s.(lastResponse := res), Split(res, ','), b);
  }

  /** A `#GetStatus` reply is given to the status handler. */
  lemma StatusRoute(s: Session, res: string)
    requires Split(res, ',')[0] == "#GetStatus"
    ensures Parse(s, res) == ParseStatus(s.(lastResponse := res), Split(res, ','))
  {
    var arr := Split(res, ',');
    var s1 := s.(lastResponse := res);
    Dispatch(s, res, "#GetStatus");
    assert HandlerFor("#GetStatus") == Some(GetStatus);
    assert Handle(GetStatus, s1, arr) == ParseStatus(s1, arr) by {
      assert !SetsOneField(GetStatus);
    }
  }

  /** What `ParseStatus` stores, read from the bit text. */
  lemma StatusStored(s: Session, arr: seq<string>, b: string)
    requires Field(arr, 1) == Some(b) && IsBinaryText(b)
    ensures var o := ParseStatus(s, arr);
      var code := Field(arr, 2);
      var st := o.session.controller.status;
      var prev := s.controller.status;
      && o.warnings == [] && o.fatal == None
      && o.session == s.(controller := s.controller.(status := st))
      && st.errCode == code
      && st.currentRobot == prev.currentRobot && st.cpuLoad == prev.cpuLoad
      && st.phase.Some?
      && (st.phase == Some(Reset) <==> !BitChar(b, 0) && !BitChar(b, 1) && !BitChar(b, 2))
      && (st.phase == Some(Ready) <==> BitChar(b, 0) && !BitChar(b, 1) && !BitChar(b, 2))
      && (st.phase == Some(Running) <==> !BitChar(b, 0) && BitChar(b, 1) && !BitChar(b, 2))
      && (st.phase == Some(Paused) <==> !BitChar(b, 0) && !BitChar(b, 1) && BitChar(b, 2))
      && st.signal == Some(Signals(BitChar(b, 3), BitChar(b, 4), BitChar(b, 5), BitChar(b, 6),
                                   BitChar(b, 7), BitChar(b, 8), BitChar(b, 9), BitChar(b, 10)))
      && (code == Some("0000") ==> st.errMsg == Some("") && st.errFunc == None)
      && (code != Some("0000") ==> st.errMsg == prev.errMsg && st.errFunc == prev.errFunc)
  {
    StatusFromText(b);
  }

  /**
   * `#GetErrFunc`: "0" clears the error function; otherwise field 1 (trimmed)
   * and fields 2 to 5 make the record, and a reply missing field 1 or 5 is a
   * fault that changes nothing.
   */
  lemma ErrFuncReply(s: Session, res: string)
    requires Split(res, ',')[0] == "#GetErrFunc"
    ensures var arr := Split(res, ',');
      var o := Parse(s, res);
      var s1 := s.(lastResponse := res);
      && o.warnings == []
      && (Field(arr, 1) == Some("0") ==>
            o == Done(s1.(controller := s1.controller.(status := s1.controller.status.(errFunc := None)))))
      && (|arr| < 2 ==> o == Throw(s1, Fault(MissingField(1))))
      && (|arr| >= 2 && arr[1] != "0" && |arr| < 6 ==> o == Throw(s1, Fault(MissingField(5))))
      && (|arr| >= 6 && arr[1] != "0" ==>
            && o.fatal == None
            && o.session.controller.status.errFunc ==
                 Some(ErrFunc(Trim(arr[1]), ToNumber(Some(arr[2])), ToNumber(Some(arr[3])),
                              ToNumber(Some(arr[4])), DateTimeToIso(arr[5])))
            && o.session == s1.(controller := s1.controller.(status := s1.controller.status.(
                 errFunc := o.session.controller.status.errFunc))))
  {
    Dispatch(s, res, "#GetErrFunc");
  }

  // ---------------------------------------------------------------------------
  // Robot list

  /**
   * The count check of `#GetRobotName`: when the stated count differs from
   * the number of robots, nothing changes and one warning is emitted; when
   * it matches, robot i gets field i+2 as its name and nothing else changes.
   */
  lemma RobotNameReply(s: Session, res: string)
    requires Split(res, ',')[0] == "#GetRobotName"
    ensures var arr := Split(res, ',');
      var o := Parse(s, res);
      var rs := o.session.robots;
      && o.fatal == None
      && o.session == s.(lastResponse := res, robots := rs)
      && (ToNumber(Field(arr, 1)) != Int(|s.robots|) ==>
            rs == s.robots && o.warnings == [CountMismatch(Field(arr, 1), |s.robots|, false)])
      && (ToNumber(Field(arr, 1)) == Int(|s.robots|) ==>
            && o.warnings == [] && |rs| == |s.robots|
            && forall i :: 0 <= i < |rs| ==> rs[i] == s.robots[i].(name := Field(arr, i + 2)))
  {
    var arr, s1 := Split(res, ','), s.(lastResponse := res);
    Dispatch(s, res, "#GetRobotName");
    assert HandlerFor("#GetRobotName") == Some(GetRobotName);
    var o, p := HandleRobots(GetRobotName, s1, arr), ParseCounted(Names, s1, arr);
    assert o.session == p.session && o.warnings == p.warnings && o.fatal == p.fatal;
    CountedStored(Names, s1, arr);
  }

  /** As `RobotNameReply`, for `#GetRobotSerial` and the serial number. */
  lemma RobotSerialReply(s: Session, res: string)
    requires Split(res, ',')[0] == "#GetRobotSerial"
    ensures var arr := Split(res, ',');
      var o := Parse(s, res);
      var rs := o.session.robots;
      && o.fatal == None
      && o.session == s.(lastResponse := res, robots := rs)
      && (ToNumber(Field(arr, 1)) != Int(|s.robots|) ==>
            rs == s.robots && o.warnings == [CountMismatch(Field(arr, 1), |s.robots|, false)])
      && (ToNumber(Field(arr, 1)) == Int(|s.robots|) ==>
            && o.warnings == [] && |rs| == |s.robots|
            && forall i :: 0 <= i < |rs| ==> rs[i] == s.robots[i].(serial := Field(arr, i + 2)))
  {
    var arr, s1 := Split(res, ','), s.(lastResponse := res);
    Dispatch(s, res, "#GetRobotSerial");
    assert HandlerFor("#GetRobotSerial") == Some(GetRobotSerial);
    var o, p := HandleRobots(GetRobotSerial, s1, arr), ParseCounted(Serials, s1, arr);
    assert o.session == p.session && o.warnings == p.warnings && o.fatal == p.fatal;
    CountedStored(Serials, s1, arr);
  }

  /**
   * `#GetMotor`: the same count check (with its own warning wording); on a
   * match robot i's motor status is read from fields 2i+2 and 2i+3, a field
   * counting as on when it is a non-zero number.
   */
  lemma MotorReply(s: Session, res: string)
    requires Split(res, ',')[0] == "#GetMotor"
    ensures var arr := Split(res, ',');
      var o := Parse(s, res);
      var rs := o.session.robots;
      && o.fatal == None
      && o.session == s.(lastResponse := res, robots := rs)
      && (ToNumber(Field(arr, 1)) != Int(|s.robots|) ==>
            rs == s.robots && o.warnings == [CountMismatch(Field(arr, 1), |s.robots|, true)])
      && (ToNumber(Field(arr, 1)) == Int(|s.robots|) ==>
            && o.warnings == [] && |rs| == |s.robots|
            && forall i :: 0 <= i < |rs| ==>
                 rs[i] == s.robots[i].(status := Some(MotorStatus(Truthy(Field(arr, 2 * i + 2)),
                                                                  Truthy(Field(arr, 2 * i + 3))))))
  {
    var arr, s1 := Split(res, ','), s.(lastResponse := res);
    Dispatch(s, res, "#GetMotor");
    assert HandlerFor("#GetMotor") == Some(GetMotor);
    var o, p := HandleRobots(GetMotor, s1, arr), ParseCounted(Motors, s1, arr);
    assert o.session == p.session && o.warnings == p.warnings && o.fatal == p.fatal;
    CountedStored(Motors, s1, arr);
  }

  /** What a count-checked reply stores: every robot or none. */
  lemma CountedStored(q: PerRobotReply, s: Session, arr: seq<string>)
    ensures var o := ParseCounted(q, s, arr);
      var rs := o.session.robots;
      && o.fatal == None
      && o.session == s.(robots := rs)
      && (ToNumber(Field(arr, 1)) != Int(|s.robots|) ==>
            rs == s.robots && o.warnings == [CountMismatch(Field(arr, 1), |s.robots|, q == Motors)])
      && (ToNumber(Field(arr, 1)) == Int(|s.robots|) ==>
            && o.warnings == [] && |rs| == |s.robots|
            && forall i :: 0 <= i < |rs| ==> rs[i] == PerRobot(q, s.robots[i], arr, i))
  {
  }

  /** The count check and its warning texts. */
  lemma CountMismatchTexts(stated: Option<string>, n: nat)
    ensures WarningText(CountMismatch(stated, n, false)) ==
      "Response " + Str(stated) + " and number of robots " + NatToString(n) + " doesn't match."
    ensures WarningText(CountMismatch(stated, n, true)) ==
      "Response " + Str(stated) + " and number of robots " + NatToString(n) + " don't match."
    ensures ToNumber(Some(NatToString(n))) == Int(n)
  {
    ToNumberOfNat(n);
  }

  /**
   * `#GetRobotInfo` replaces the whole robot list: N fresh records numbered
   * 1..N when field 1 is a positive integer N (none otherwise), robot i
   * taking its type from field 2i+2 and its model from field 2i+3, series
   * and joint count derived from the model. Nothing else changes, and the
   * same reply applied again gives the same state.
   */
  lemma RobotInfoReply(s: Session, res: string)
    requires Split(res, ',')[0] == "#GetRobotInfo"
    ensures var arr := Split(res, ',');
      var o := Parse(s, res);
      var rs := o.session.robots;
      && o.warnings == [] && o.fatal == None
      && o.session == s.(lastResponse := res, robots := rs)
      && (forall n: int :: ToNumber(Field(arr, 1)) == Int(n) && n > 0 ==> |rs| == n)
      && (!(ToNumber(Field(arr, 1)).Int? && ToNumber(Field(arr, 1)).value > 0) ==> rs == [])
      && (forall i :: 0 <= i < |rs| ==>
            && rs[i].number == i + 1
            && rs[i].rtype == RobotTypeOf(Field(arr, 2 * i + 2))
            && rs[i].model == Field(arr, 2 * i + 3)
            && rs[i].series == SeriesName(Str(rs[i].model))
            && rs[i].joints == JointsNumber(rs[i].rtype, Str(rs[i].model))
            && rs[i].name == Some("") && rs[i].serial == Some("")
            && rs[i].hofs == [] && rs[i].warnings == None && rs[i].health == map[] && rs[i].status == None)
      && Parse(o.session, res) == o
  {
    Dispatch(s, res, "#GetRobotInfo");
    Dispatch(Parse(s, res).session, res, "#GetRobotInfo");
  }

  /**
   * The two-robot inventory reply `#GetRobotInfo,2,1,G1-252S,3,C4-A701S`
   * (given by its comma fields): a Joint
   * robot of the G1 series with no joint count, and a SCARA robot whose
   * model matches no series and which therefore has 4 joints.
   */
  lemma RobotInfoExample(s: Session, res: string)
    requires Split(res, ',') == ["#GetRobotInfo", "2", "1", "G1-252S", "3", "C4-A701S"]
    ensures var o := Parse(s, res);
      var rs := o.session.robots;
      && |rs| == 2
      && rs[0].number == 1 && rs[0].rtype == Some(Joint) && rs[0].model == Some("G1-252S")
      && rs[0].series == "G1" && rs[0].joints == None
      && rs[1].number == 2 && rs[1].rtype == Some(Scara) && rs[1].model == Some("C4-A701S")
      && rs[1].series == "Unknown" && rs[1].joints == Some(4)
  {
    RobotInfoInventory(s, res);
    ExampleRobots(Split(res, ','));
  }

  lemma RobotInfoInventory(s: Session, res: string)
    requires Split(res, ',')[0] == "#GetRobotInfo"
    ensures Parse(s, res).session.robots == Inventory(Split(res, ','))
  {
    Dispatch(s, res, "#GetRobotInfo");
    assert HandlerFor("#GetRobotInfo") == Some(GetRobotInfo);
  }

  lemma ExampleRobots(arr: seq<string>)
    requires arr == ["#GetRobotInfo", "2", "1", "G1-252S", "3", "C4-A701S"]
    ensures var rs := Inventory(arr);
      && |rs| == 2
      && rs[0].number == 1 && rs[0].rtype == Some(Joint) && rs[0].model == Some("G1-252S")
      && rs[0].series == "G1" && rs[0].joints == None
      && rs[1].number == 2 && rs[1].rtype == Some(Scara) && rs[1].model == Some("C4-A701S")
      && rs[1].series == "Unknown" && rs[1].joints == Some(4)
  {
    ExampleCount(arr);
    FirstExampleRobot(arr);
    SecondExampleRobot(arr);
    assert Inventory(arr)[0] == NewRobot(arr, 0);
    assert Inventory(arr)[1] == NewRobot(arr, 1);
  }

  lemma ExampleCount(arr: seq<string>)
    requires arr == ["#GetRobotInfo", "2", "1", "G1-252S", "3", "C4-A701S"]
    ensures InventoryCount(arr) == 2
  {
    ToNumberOfNat(2);
    assert NatToString(2) == "2";
    assert Field(arr, 1) == Some("2");
  }

  lemma FirstExampleRobot(arr: seq<string>)
    requires arr == ["#GetRobotInfo", "2", "1", "G1-252S", "3", "C4-A701S"]
    ensures var r := NewRobot(arr, 0);
      r.number == 1 && r.rtype == Some(Joint) && r.model == Some("G1-252S") && r.series == "G1" && r.joints == None
  {
    assert Field(arr, 2) == Some("1") && Field(arr, 3) == Some("G1-252S");
    assert "G1-252S"[..2] == "G1" && "G1-252S"[2] == '-';
    G1Series("G1-252S");
  }

  lemma SecondExampleRobot(arr: seq<string>)
    requires arr == ["#GetRobotInfo", "2", "1", "G1-252S", "3", "C4-A701S"]
    ensures var r := NewRobot(arr, 1);
      r.number == 2 && r.rtype == Some(Scara) && r.model == Some("C4-A701S") && r.series == "Unknown" && r.joints == Some(4)
  {
    assert Field(arr, 4) == Some("3") && Field(arr, 5) == Some("C4-A701S");
    assert "C4-A701S"[..5] == "C4-A7";
    NoSeriesForC4A7("C4-A701S");
    assert Lits("G1-")[0] == Lit('G');
    assert ThreeJointScara.atoms[0] == Lit('G');
    assert !AtomMatches(ThreeJointScara.atoms[0], "C4-A701S"[0]);
  }

  /** "C4-A7..." is none of the listed series. */
  lemma NoSeriesForC4A7(model: string)
    requires StartsWith(model, "C4-A7") && model[|model| - 1] != 'C' && model[|model| - 1] != 'D'
    ensures SeriesName(model) == "Unknown"
  {
    C4A7NoPrefixRule(model);
    C4A7NoX5Rule(model);
    forall j | 0 <= j < |SeriesRules|
      ensures !Matches(SeriesRules[j].0, model)
    {
      if j >= |PrefixRules| {
        assert SeriesRules[j] == X5Rules[j - |PrefixRules|];
      }
    }
    NoMatchIsUnknown(model);
  }

  /** A "C4-A7" model has none of the plain prefixes. */
  lemma C4A7NoPrefixRule(model: string)
    requires StartsWith(model, "C4-A7")
    ensures forall j :: 0 <= j < |PrefixRules| ==> !Matches(PrefixRules[j].0, model)
  {
    assert model[0] == 'C' && model[1] == '4' && model[2] == '-' && model[3] == 'A' && model[4] == '7';
  }

  /** ... and, not ending in `C` or `D`, matches no X5 rule. */
  lemma C4A7NoX5Rule(model: string)
    requires StartsWith(model, "C4-A7") && model[|model| - 1] != 'C' && model[|model| - 1] != 'D'
    ensures forall j :: 0 <= j < |X5Rules| ==> !Matches(X5Rules[j].0, model)
  {
    assert model[0] == 'C';
    forall j | 0 <= j < |X5Rules|
      ensures !Matches(X5Rules[j].0, model)
    {
      X5RuleOtherStart(model, j);
    }
  }

  /** No X5 rule matches a text that does not start with `X` and does not end in `C` or `D`. */
  lemma X5RuleOtherStart(model: string, j: int)
    requires |model| > 0 && model[0] != 'X' && model[|model| - 1] != 'C' && model[|model| - 1] != 'D'
    requires 0 <= j < |X5Rules|
    ensures !Matches(X5Rules[j].0, model)
  {
    if j == 0 { Gap7OtherStart("X5G", 'A', false, model); }
    else if j == 1 { Gap7OtherStart("X5G", 'B', false, model); }
    else if j == 2 { Gap7OtherStart("X5Z", 'A', true, model); }
    else if j == 3 { Gap7OtherStart("X5Z", 'B', true, model); }
    else if j == 4 { Gap7OtherStart("X5P", 'A', false, model); }
    else if j == 5 { Gap7OtherStart("X5P", 'B', false, model); }
    else if j == 6 { Gap7OtherStart("X5U", 'A', false, model); }
    else { Gap7OtherStart("X5U", 'B', false, model); }
  }

  /** `^<p>.{7}<c>` fails on a text whose first character is not that of `p`. */
  lemma Gap7OtherStart(p: string, c: char, toEnd: bool, s: string)
    requires |p| > 0 && |s| > 0 && s[0] != p[0]
    ensures !Matches(Gap7(p, c, toEnd), s)
  {
    var atoms := Lits(p) + Any7 + [Lit(c)];
    assert atoms[0] == Lit(p[0]);
  }

  // ---------------------------------------------------------------------------
  // Replies addressed through the last command

  /**
   * `#GetHofs` writes the robot named by the first digit of the last
   * command: all values when its joint count is unknown, else the first
   * `joints` values (fewer if the reply is short). Other robots and the
   * controller are untouched; a digit naming no robot is a fault.
   */
  lemma HofsReply(s: Session, res: string)
    requires Split(res, ',')[0] == "#GetHofs"
    ensures var arr := Split(res, ',');
      var o := Parse(s, res);
      var n := FirstDigit(s.lastCommand);
      && o.warnings == []
      && (!(1 <= n <= |s.robots|) ==> o == Throw(s.(lastResponse := res), Fault(NoRobotAt(n - 1))))
      && (1 <= n <= |s.robots| ==>
            var rs := o.session.robots;
            && o.fatal == None
            && o.session == s.(lastResponse := res, robots := rs)
            && |rs| == |s.robots|
            && (forall k :: 0 <= k < |rs| && k != n - 1 ==> rs[k] == s.robots[k])
            && var hofs := rs[n - 1].hofs;
            && rs[n - 1] == s.robots[n - 1].(hofs := hofs)
            && (s.robots[n - 1].joints.None? ==> |hofs| == |arr| - 1)
            && (forall j: nat :: s.robots[n - 1].joints == Some(j) ==>
                  |hofs| == if j < |arr| - 1 then j else |arr| - 1)
            && (forall m :: 0 <= m < |hofs| ==> hofs[m] == ToNumber(Field(arr, m + 1))))
  {
    var arr, s1 := Split(res, ','), s.(lastResponse := res);
    Dispatch(s, res, "#GetHofs");
    assert HandlerFor("#GetHofs") == Some(GetHofs);
    var o, p := HandleRobots(GetHofs, s1, arr), ParseHofs(s1, arr);
    assert o.session == p.session && o.warnings == p.warnings && o.fatal == p.fatal;
    HofsStored(s1, arr);
  }

  /** What `ParseHofs` stores. */
  lemma HofsStored(s: Session, arr: seq<string>)
    requires |arr| >= 1
    ensures var o := ParseHofs(s, arr);
      var n := FirstDigit(s.lastCommand);
      && o.warnings == []
      && (!(1 <= n <= |s.robots|) ==> o.session == s && o.fatal == Some(Fault(NoRobotAt(n - 1))))
      && (1 <= n <= |s.robots| ==>
            var rs := o.session.robots;
            && o.fatal == None
            && o.session == s.(robots := rs)
            && |rs| == |s.robots|
            && (forall k :: 0 <= k < |rs| && k != n - 1 ==> rs[k] == s.robots[k])
            && var hofs := rs[n - 1].hofs;
            && rs[n - 1] == s.robots[n - 1].(hofs := hofs)
            && (s.robots[n - 1].joints.None? ==> |hofs| == |arr| - 1)
            && (forall j: nat :: s.robots[n - 1].joints == Some(j) ==>
                  |hofs| == if j < |arr| - 1 then j else |arr| - 1)
            && (forall m :: 0 <= m < |hofs| ==> hofs[m] == ToNumber(Field(arr, m + 1))))
  {
  }

  /**
   * `#GetPartWarning` sets the six warning flags of the robot named by the
   * first digit of the last command; nothing else changes.
   */
  lemma PartWarningReply(s: Session, res: string)
    requires Split(res, ',')[0] == "#GetPartWarning"
    ensures var arr := Split(res, ',');
      var o := Parse(s, res);
      var n := FirstDigit(s.lastCommand);
      && o.warnings == []
      && (!(1 <= n <= |s.robots|) ==> o == Throw(s.(lastResponse := res), Fault(NoRobotAt(n - 1))))
      && (1 <= n <= |s.robots| ==>
            && o.fatal == None
            && o.session == s.(lastResponse := res, robots := s.robots[n - 1 := s.robots[n - 1].(
                 warnings := Some(PartWarnings(Truthy(Field(arr, 1)), Truthy(Field(arr, 2)), Truthy(Field(arr, 3)),
                                               Truthy(Field(arr, 4)), Truthy(Field(arr, 5)), Truthy(Field(arr, 6)))))]))
  {
    var arr, s1 := Split(res, ','), s.(lastResponse := res);
    Dispatch(s, res, "#GetPartWarning");
    assert HandlerFor("#GetPartWarning") == Some(GetPartWarning);
    var o, p := HandleRobots(GetPartWarning, s1, arr), ParsePartWarning(s1, arr);
    assert o.session == p.session && o.warnings == p.warnings && o.fatal == p.fatal;
  }

  /** Storing one part's health sets that (joint, part) entry and no other. */
  lemma StoreHealthOnlyEntry(h: map<string, map<string, PartHealth>>, joint: string, part: string, p: PartHealth)
    ensures var h' := StoreHealth(h, joint, part, p);
      && joint in h' && part in h'[joint] && h'[joint][part] == p
      && h'.Keys == h.Keys + {joint}
      && (forall j :: j in h && j != joint ==> h'[j] == h[j])
      && (joint in h ==> h'[joint].Keys == h[joint].Keys + {part})
      && (joint in h ==> forall q :: q in h[joint] && q != part ==> h'[joint][q] == h[joint][q])
      && (joint !in h ==> h'[joint].Keys == {part})
  {
  }

  /**
   * A `#GetHealthRB` reply, as the whole of `_parseResponse` handles it:
   * "-1" changes nothing but `lastResponse`; no digit in the last command, a
   * missing field 1 or a robot number naming no robot is a fault; otherwise
   * the (joint, part) entry named by the last command's digits is stored
   * for that robot, and nothing else in the state changes.
   */
  lemma HealthRBReply(s: Session, res: string)
    requires Split(res, ',')[0] == "#GetHealthRB"
    ensures var arr := Split(res, ',');
      var o := Parse(s, res);
      var s1 := s.(lastResponse := res);
      var ds := Digits(s.lastCommand);
      && o.warnings == []
      && (Field(arr, 1) == Some("-1") ==> o == Done(s1))
      && (Field(arr, 1) != Some("-1") && |ds| == 0 ==> o == Throw(s1, Fault(NoDigitsInCommand)))
      && (|ds| > 0 && |arr| < 2 ==> o == Throw(s1, Fault(MissingField(1))))
      && (Field(arr, 1) != Some("-1") && |ds| > 0 && |arr| >= 2 && !(1 <= ds[0] <= |s.robots|) ==>
            o == Throw(s1, Fault(NoRobotAt(ds[0] as int - 1))))
      && (Field(arr, 1) != Some("-1") && |ds| > 0 && |arr| >= 2 && 1 <= ds[0] <= |s.robots| ==>
            var k: int := ds[0] - 1;
            var rs := o.session.robots;
            && o.fatal == None
            && o.session == s1.(robots := rs)
            && |rs| == |s.robots|
            && rs[k].health == StoreHealth(s.robots[k].health,
                 if |ds| > 1 && ds[1] == 1 then "common"
                 else "joint" + (if |ds| > 2 then NatToString(ds[2]) else "undefined"),
                 PartName(if |ds| > 1 then Some(ds[1]) else None),
                 PartHealth(DateTimeToIso(arr[1]), ToNumber(Field(arr, 2)), ToNumber(Field(arr, 3))))
            && rs[k] == s.robots[k].(health := rs[k].health)
            && (forall i :: 0 <= i < |rs| && i != k ==> rs[i] == s.robots[i]))
  {
    var arr, s1 := Split(res, ','), s.(lastResponse := res);
    Dispatch(s, res, "#GetHealthRB");
    assert HandlerFor("#GetHealthRB") == Some(GetHealthRB);
    var o, p := HandleRobots(GetHealthRB, s1, arr), ParseHealthRB(s1, arr);
    assert o.session == p.session && o.warnings == p.warnings && o.fatal == p.fatal;
    HealthRBStored(s1, arr);
    var ds := Digits(s.lastCommand);
    if Field(arr, 1) != Some("-1") && |ds| > 0 && |arr| >= 2 && 1 <= ds[0] <= |s.robots| {
      HealthRBEntry(s1, arr);
    }
  }

  /**
   * `#GetHealthRB`: "-1" changes nothing. Otherwise the digits of the last
   * command name robot, part type and joint; part type 1 is stored under
   * "common" and any other under "joint" and the third digit, and only that
   * entry of that robot changes. No digit at all, a missing field 1, or a
   * robot number naming no robot is a fault that changes nothing.
   */
  lemma HealthRBStored(s: Session, arr: seq<string>)
    ensures var o := ParseHealthRB(s, arr);
      var ds := Digits(s.lastCommand);
      && o.warnings == []
      && (Field(arr, 1) == Some("-1") ==> o == Done(s))
      && (Field(arr, 1) != Some("-1") && |ds| == 0 ==> o == Throw(s, Fault(NoDigitsInCommand)))
      && (|ds| > 0 && |arr| < 2 ==> o == Throw(s, Fault(MissingField(1))))
      && (Field(arr, 1) != Some("-1") && |ds| > 0 && |arr| >= 2 && !(1 <= ds[0] <= |s.robots|) ==>
            o == Throw(s, Fault(NoRobotAt(ds[0] as int - 1))))
      && (Field(arr, 1) != Some("-1") && |ds| > 0 && |arr| >= 2 && 1 <= ds[0] <= |s.robots| ==>
            o.fatal == None && o.session == s.(robots := o.session.robots))
  {
  }

  /** The entry a `#GetHealthRB` reply stores: robot, part and joint named by the last command's digits. */
  lemma HealthRBEntry(s: Session, arr: seq<string>)
    requires Field(arr, 1) != Some("-1") && |arr| >= 2
    requires var ds := Digits(s.lastCommand); |ds| > 0 && 1 <= ds[0] <= |s.robots|
    ensures var ds := Digits(s.lastCommand);
      var k: int := ds[0] - 1;
      var joint := if |ds| > 1 && ds[1] == 1 then "common"
                   else "joint" + (if |ds| > 2 then NatToString(ds[2]) else "undefined");
      var part := PartName(if |ds| > 1 then Some(ds[1]) else None);
      var p := PartHealth(DateTimeToIso(arr[1]), ToNumber(Field(arr, 2)), ToNumber(Field(arr, 3)));
      var rs := ParseHealthRB(s, arr).session.robots;
      && |rs| == |s.robots|
      && rs[k].health == StoreHealth(s.robots[k].health, joint, part, p)
      && rs[k] == s.robots[k].(health := rs[k].health)
      && (forall i :: 0 <= i < |rs| && i != k ==> rs[i] == s.robots[i])
  {
    var ds := Digits(s.lastCommand);
    var k := ds[0] - 1;
    var r := s.robots[k];
    var p := PartHealth(DateTimeToIso(arr[1]), ToNumber(Field(arr, 2)), ToNumber(Field(arr, 3)));
    var part := PartName(if |ds| > 1 then Some(ds[1]) else None);
    var h := StoreHealth(r.health, JointKey(ds), part, p);
    var rs := ParseHealthRB(s, arr).session.robots;
    assert rs == s.robots[k := r.(health := h)];
    assert rs[k] == r.(health := h);
  }

  /**
   * `#GetHealthCont`: "-1" removes the battery record; field 1 present
   * records it; field 1 missing is a fault that leaves an empty record
   * behind when there was none.
   */
  lemma HealthContReply(s: Session, res: string)
    requires Split(res, ',')[0] == "#GetHealthCont"
    ensures var arr := Split(res, ',');
      var o := Parse(s, res);
      var c := s.controller;
      && o.warnings == []
      && o.session.robots == s.robots
      && (Field(arr, 1) == Some("-1") ==> o == Done(s.(lastResponse := res, controller := c.(health := NoBattery))))
      && (|arr| < 2 ==>
            && o.fatal == Some(Fault(MissingField(1)))
            && o.session == s.(lastResponse := res, controller := c.(
                 health := if c.health == NoBattery then EmptyBattery else c.health)))
      && (|arr| >= 2 && arr[1] != "-1" ==>
            o == Done(s.(lastResponse := res, controller := c.(health := Battery(
                   PartHealth(DateTimeToIso(arr[1]), ToNumber(Field(arr, 2)), ToNumber(Field(arr, 3))))))))
  {
    var arr, s1 := Split(res, ','), s.(lastResponse := res);
    Dispatch(s, res, "#GetHealthCont");
    assert HandlerFor("#GetHealthCont") == Some(GetHealthCont);
    assert HandleRobots(GetHealthCont, s1, arr) == ParseHealthCont(s1, arr);
  }
}
