/**
 * The command queues of the status-monitor node: the fixed queues, the
 * optional once-queue and periodic queue chosen after the first exchange,
 * the daily health queue with its per-type part lists, and the error
 * follow-up queue. Each queue has a specification function; the methods
 * build it the way the node does, by pushing inside loops.
 */
module Queues {
  import opened Js
  import opened RobotModels
  import opened ErcState

  // ---------------------------------------------------------------------------
  // The fixed queues

  /** Sent once after login, whatever the firmware. */
  const QueueOnceCommon: seq<string> := ["$GetContName", "$GetContNo", "$GetContVer", "$GetRobotInfo"]

  /** Sent once after login, new firmware only. */
  const QueueOnceNewer: seq<string> :=
    ["$GetContType", "$GetSubnetMask", "$GetDefaultGateway", "$GetContMacAdd", "$GetContSettings", "$GetContDev"]

  /** Sent once after login, new firmware with robots. */
  const QueueOnceNewerAndRobots: seq<string> := ["$GetRobotName,0", "$GetRobotSerial,0"]

  /** Sent every period, whatever the firmware. */
  const QueueEverySecondsCommon: seq<string> := ["$GetCurRobot", "$GetCpuLoad", "$GetPrjName", "$GetStatus"]

  /** Sent every period, new firmware with robots. */
  const QueueEverySecondsNewerAndRobots: seq<string> := ["$GetMotor,0"]

  /** `<part type>,<joint>` pairs of a 4-axis SCARA (part 1 is the backup battery). */
  const PartHealth4AxisScara: seq<string> := [
    "1,1", "2,1", "3,1", "4,1", "5,1", "2,2", "3,2", "4,2", "5,2",
    "2,3", "3,3", "4,3", "6,3", "2,4", "3,4", "4,4", "5,4"]

  /** `<part type>,<joint>` pairs of a 3-axis SCARA. */
  const PartHealth3AxisScara: seq<string> := [
    "1,1", "3,1", "4,1", "5,1", "3,2", "4,2", "5,2", "2,3", "3,3", "4,3", "6,3"]

  /** `<part type>,<joint>` pairs of a 6-axis robot (N-series included). */
  const PartHealth6Axis: seq<string> := [
    "1,1", "2,1", "3,1", "4,1", "5,1", "2,2", "3,2", "4,2", "5,2",
    "2,3", "3,3", "4,3", "5,3", "2,4", "3,4", "4,4", "5,4",
    "2,5", "3,5", "4,5", "5,5", "2,6", "3,6", "4,6", "5,6"]

  function HofsCommand(n: nat): string { "$GetHofs," + NatToString(n) }

  function PartWarningCommand(n: nat): string { "$GetPartWarning," + NatToString(n) }

  function HealthRBCommand(n: nat, part: string): string { "$GetHealthRB," + NatToString(n) + "," + part }

  function ErrMsgCommand(errCode: Option<string>, localeNumber: nat): string
  {
    "$GetErrMsg," + Str(errCode) + "," + NatToString(localeNumber)
  }

  function ErrFuncCommand(errCode: Option<string>): string { "$GetErrFunc," + Str(errCode) }

  // ---------------------------------------------------------------------------
  // Once-queue and periodic queue

  /** The optional once-queue and the periodic queue. */
  datatype Schedule = Schedule(onceOptional: seq<string>, periodic: seq<string>)

  /** `$GetHofs,1` … `$GetHofs,n`. */
  function HofsQueue(n: nat): seq<string>
  {
    seq(n, i requires 0 <= i < n => HofsCommand(i + 1))
  }

  /** `$GetPartWarning,1` … `$GetPartWarning,n`. */
  function PartWarningQueue(n: nat): seq<string>
  {
    seq(n, i requires 0 <= i < n => PartWarningCommand(i + 1))
  }

  /** The queues chosen once `queueOnceCommon` has been answered. */
  function OnceSchedule(firmware: string, robots: nat): Schedule
  {
    if firmware == "" then Schedule([], QueueEverySecondsCommon)
    else if robots == 0 then Schedule(QueueOnceNewer, QueueEverySecondsCommon)
    else Schedule(QueueOnceNewer + QueueOnceNewerAndRobots + HofsQueue(robots),
                  QueueEverySecondsCommon + QueueEverySecondsNewerAndRobots)
  }

  /** Builds the two queues by concatenation and one push per robot. */
  method BuildOnceSchedule(firmware: string, robots: nat) returns (once: seq<string>, periodic: seq<string>)
    ensures Schedule(once, periodic) == OnceSchedule(firmware, robots)
  {
    once := [];
    periodic := QueueEverySecondsCommon;
    if firmware != "" {
      once := once + QueueOnceNewer;
      if robots > 0 {
        once := once + QueueOnceNewerAndRobots;
        periodic := periodic + QueueEverySecondsNewerAndRobots;
        var i := 0;
        while i < robots
          invariant 0 <= i <= robots
          invariant once == QueueOnceNewer + QueueOnceNewerAndRobots + HofsQueue(i)
        {
          once := once + [HofsCommand(i + 1)];
          i := i + 1;
        }
      }
    }
  }

  /**
   * Old firmware (empty version) gets no optional once-queue. New firmware
   * gets `queueOnceNewer`, then, with n robots, the name and serial
   * requests and `$GetHofs,1` … `$GetHofs,n` in order. The motor request
   * joins the periodic queue exactly for new firmware with robots.
   */
  lemma OnceScheduleShape(firmware: string, robots: nat)
    ensures var sc := OnceSchedule(firmware, robots);
      && (sc.onceOptional == [] <==> firmware == "")
      && (firmware != "" ==>
            && sc.onceOptional[..6] == QueueOnceNewer
            && |sc.onceOptional| == (if robots == 0 then 6 else 8 + robots)
            && (robots > 0 ==> sc.onceOptional[6..8] == QueueOnceNewerAndRobots)
            && forall k :: 1 <= k <= robots ==> sc.onceOptional[7 + k] == HofsCommand(k))
      && sc.periodic[..4] == QueueEverySecondsCommon
      && ("$GetMotor,0" in sc.periodic <==> firmware != "" && robots > 0)
  {
    var sc := OnceSchedule(firmware, robots);
    if firmware != "" && robots > 0 {
      forall k | 1 <= k <= robots
        ensures sc.onceOptional[7 + k] == HofsCommand(k)
      {
        assert sc.onceOptional[7 + k] == HofsQueue(robots)[k - 1];
      }
      assert sc.periodic[4] == "$GetMotor,0";
    } else {
      assert sc.periodic == QueueEverySecondsCommon;
      assert "$GetMotor,0" !in QueueEverySecondsCommon by {
        assert forall i :: 0 <= i < 4 ==> QueueEverySecondsCommon[i][4] != 'M';
      }
    }
  }

  // ---------------------------------------------------------------------------
  // Daily queue

  /** Why a robot's part health is not requested; the node warns with the robot number. */
  datatype HealthNotice =
    | JointOrCartesian(number: nat)
    | UnsupportedType(number: nat)

  function NoticeText(n: HealthNotice): string
  {
    match n
    case JointOrCartesian(k) =>
      "Joint or Cartesian type robot was detected for robot number " + NatToString(k) + ". Part health data is not available."
    case UnsupportedType(k) =>
      "Unsupported robot type was detected for robot number " + NatToString(k) + ". Part health data is not available."
  }

  /** The daily queue and the warnings issued while building it. */
  datatype DailyPlan = DailyPlan(queue: seq<string>, notices: seq<HealthNotice>)

  /** The part list a robot's type and joint count select. */
  function PartsFor(r: Robot): seq<string>
  {
    match r.rtype
    case Some(Scara) | Some(RsSeries) =>
      if r.joints == Some(3) then PartHealth3AxisScara
      else if r.joints == Some(4) then PartHealth4AxisScara
      else []
    case Some(SixAxis) | Some(NSeries) => PartHealth6Axis
    case _ => []
  }

  function NoticesFor(r: Robot): seq<HealthNotice>
  {
    match r.rtype
    case Some(Joint) | Some(Cartesian) => [JointOrCartesian(r.number)]
    case None => [UnsupportedType(r.number)]
    case _ => []
  }

  /** `partList.map(el => '$GetHealthRB,<n>,' + el)`. */
  function HealthQueue(n: nat, parts: seq<string>): seq<string>
  {
    seq(|parts|, k requires 0 <= k < |parts| => HealthRBCommand(n, parts[k]))
  }

  /** What the robot at index i adds to the daily queue. */
  function RobotDaily(i: nat, r: Robot, maintenance: bool): DailyPlan
  {
    if maintenance then DailyPlan([PartWarningCommand(i + 1)] + HealthQueue(i + 1, PartsFor(r)), NoticesFor(r))
    else DailyPlan([PartWarningCommand(i + 1)], [])
  }

  /** What the first k robots add to the daily queue. */
  function DailyUpTo(robots: seq<Robot>, k: nat, maintenance: bool): DailyPlan
    requires k <= |robots|
  {
    if k == 0 then DailyPlan([], [])
    else
      var prev := DailyUpTo(robots, k - 1, maintenance);
      var step := RobotDaily(k - 1, robots[k - 1], maintenance);
      DailyPlan(prev.queue + step.queue, prev.notices + step.notices)
  }

  /**
   * Whether part health is requested. Before `#GetContSettings` is answered
   * the preferences are an empty object, whose flag reads as undefined.
   */
  predicate MaintenanceEnabled(prefs: Option<Preferences>)
  {
    prefs.Some? && prefs.value.enableRobotMaintenanceData
  }

  /** The daily queue: empty for old firmware. */
  function DailySchedule(firmware: string, prefs: Option<Preferences>, robots: seq<Robot>): DailyPlan
  {
    if firmware == "" then DailyPlan([], [])
    else
      var m := MaintenanceEnabled(prefs);
      var body := DailyUpTo(robots, |robots|, m);
      DailyPlan((if m then ["$GetHealthCont"] else []) + body.queue, body.notices)
  }

  /** The `switch` on the robot's type: its `$GetHealthRB` requests, or a notice. */
  method RobotHealth(i: nat, r: Robot) returns (items: seq<string>, notices: seq<HealthNotice>)
    ensures items == HealthQueue(i + 1, PartsFor(r)) && notices == NoticesFor(r)
  {
    items, notices := [], [];
    match r.rtype {
      case Some(Scara) =>
        if r.joints == Some(3) {
          items := HealthQueue(i + 1, PartHealth3AxisScara);
        } else if r.joints == Some(4) {
          items := HealthQueue(i + 1, PartHealth4AxisScara);
        }
      case Some(RsSeries) =>
        if r.joints == Some(3) {
          items := HealthQueue(i + 1, PartHealth3AxisScara);
        } else if r.joints == Some(4) {
          items := HealthQueue(i + 1, PartHealth4AxisScara);
        }
      case Some(SixAxis) => items := HealthQueue(i + 1, PartHealth6Axis);
      case Some(NSeries) => items := HealthQueue(i + 1, PartHealth6Axis);
      case Some(Joint) => notices := [JointOrCartesian(r.number)];
      case Some(Cartesian) => notices := [JointOrCartesian(r.number)];
      case None => notices := [UnsupportedType(r.number)];
    }
  }

  /** One robot's part of the daily queue: its part warning request, then its health requests. */
  method RobotStep(i: nat, r: Robot, maintenance: bool) returns (step: seq<string>, notices: seq<HealthNotice>)
    ensures DailyPlan(step, notices) == RobotDaily(i, r, maintenance)
  {
    step, notices := [PartWarningCommand(i + 1)], [];
    if maintenance {
      var items;
      items, notices := RobotHealth(i, r);
      step := step + items;
    }
  }

  /** Adding robot k to the daily queue appends its own requests and notices. */
  lemma DailyExtend(robots: seq<Robot>, k: nat, m: bool, head: seq<string>)
    requires k < |robots|
    ensures var step := RobotDaily(k, robots[k], m);
      && head + DailyUpTo(robots, k + 1, m).queue == (head + DailyUpTo(robots, k, m).queue) + step.queue
      && DailyUpTo(robots, k + 1, m).notices == DailyUpTo(robots, k, m).notices + step.notices
  {
  }

  /** Builds the daily queue: one push per robot, then its part list when maintenance data is enabled. */
  method BuildDaily(firmware: string, prefs: Option<Preferences>, robots: seq<Robot>) returns (plan: DailyPlan)
    ensures plan == DailySchedule(firmware, prefs, robots)
  {
    if firmware == "" {
      return DailyPlan([], []);
    }
    var m := prefs.Some? && prefs.value.enableRobotMaintenanceData;
    var queue: seq<string> := [];
    var notices: seq<HealthNotice> := [];
    if m {
      queue := queue + ["$GetHealthCont"];
    }
    ghost var head := queue;
    var i := 0;
    while i < |robots|
      invariant 0 <= i <= |robots|
      invariant queue == head + DailyUpTo(robots, i, m).queue
      invariant notices == DailyUpTo(robots, i, m).notices
    {
      var step, stepNotices := RobotStep(i, robots[i], m);
      DailyExtend(robots, i, m, head);
      queue := queue + step;
      notices := notices + stepNotices;
      i := i + 1;
    }
    assert head == (if m then ["$GetHealthCont"] else []);
    return DailyPlan(queue, notices);
  }

  /** The `$GetPartWarning,` items of a queue, in order. */
  function PartWarningItems(q: seq<string>): seq<string>
  {
    if |q| == 0 then []
    else (if StartsWith(q[0], "$GetPartWarning,") then [q[0]] else []) + PartWarningItems(q[1..])
  }

  lemma {:induction false} PartWarningItemsAppend(a: seq<string>, b: seq<string>)
    ensures PartWarningItems(a + b) == PartWarningItems(a) + PartWarningItems(b)
    decreases |a|
  {
    if |a| > 0 {
      var x := if StartsWith(a[0], "$GetPartWarning,") then [a[0]] else [];
      assert (a + b)[0] == a[0];
      assert (a + b)[1..] == a[1..] + b;
      PartWarningItemsAppend(a[1..], b);
      assert PartWarningItems(a + b) == x + (PartWarningItems(a[1..]) + PartWarningItems(b));
      assert PartWarningItems(a) == x + PartWarningItems(a[1..]);
    } else {
      assert a + b == b;
    }
  }

  lemma HealthCommandIsNoPartWarning(n: nat, part: string)
    ensures !StartsWith(HealthRBCommand(n, part), "$GetPartWarning,")
  {
    assert HealthRBCommand(n, part)[4] == 'H';
  }

  lemma {:induction false} HealthQueueHasNoPartWarning(n: nat, parts: seq<string>)
    ensures PartWarningItems(HealthQueue(n, parts)) == []
    decreases |parts|
  {
    if |parts| > 0 {
      var q := HealthQueue(n, parts);
      HealthCommandIsNoPartWarning(n, parts[0]);
      assert q[1..] == HealthQueue(n, parts[1..]);
      HealthQueueHasNoPartWarning(n, parts[1..]);
    }
  }

  lemma {:induction false} DailyUpToPartWarnings(robots: seq<Robot>, k: nat, m: bool)
    requires k <= |robots|
    ensures PartWarningItems(DailyUpTo(robots, k, m).queue) == PartWarningQueue(k)
    decreases k
  {
    if k > 0 {
      DailyUpToPartWarnings(robots, k - 1, m);
      var prev := DailyUpTo(robots, k - 1, m);
      var step := RobotDaily(k - 1, robots[k - 1], m);
      PartWarningItemsAppend(prev.queue, step.queue);
      var pw := [PartWarningCommand(k)];
      assert StartsWith(PartWarningCommand(k), "$GetPartWarning,");
      if m {
        PartWarningItemsAppend(pw, HealthQueue(k, PartsFor(robots[k - 1])));
        HealthQueueHasNoPartWarning(k, PartsFor(robots[k - 1]));
      }
      assert PartWarningItems(pw) == pw by {
        assert pw[1..] == [];
      }
      assert PartWarningItems(step.queue) == pw;
    }
  }

  /**
   * Whatever the maintenance flag, the daily queue of new firmware holds
   * exactly one `$GetPartWarning,i` per robot, for i = 1 … n in order.
   */
  lemma DailyPartWarnings(firmware: string, prefs: Option<Preferences>, robots: seq<Robot>)
    requires firmware != ""
    ensures PartWarningItems(DailySchedule(firmware, prefs, robots).queue) == PartWarningQueue(|robots|)
  {
    var m := MaintenanceEnabled(prefs);
    var body := DailyUpTo(robots, |robots|, m);
    var head: seq<string> := if m then ["$GetHealthCont"] else [];
    assert DailySchedule(firmware, prefs, robots).queue == head + body.queue;
    DailyUpToPartWarnings(robots, |robots|, m);
    PartWarningItemsAppend(head, body.queue);
    HealthContIsNoPartWarning();
  }

  lemma HealthContIsNoPartWarning()
    ensures PartWarningItems([]) == [] && PartWarningItems(["$GetHealthCont"]) == []
  {
    var hc := ["$GetHealthCont"];
    assert hc[0][4] == 'H';
    assert hc[1..] == [];
  }

  lemma {:induction false} DailyUpToWithoutMaintenance(robots: seq<Robot>, k: nat)
    requires k <= |robots|
    ensures DailyUpTo(robots, k, false) == DailyPlan(PartWarningQueue(k), [])
    decreases k
  {
    if k > 0 {
      DailyUpToWithoutMaintenance(robots, k - 1);
    }
  }

  /**
   * With maintenance data disabled the daily queue holds only the part
   * warning requests: no `$GetHealthCont`, no `$GetHealthRB`, and no notice.
   * Old firmware has an empty daily queue.
   */
  lemma DailyWithoutMaintenance(firmware: string, prefs: Option<Preferences>, robots: seq<Robot>)
    ensures firmware == "" ==> DailySchedule(firmware, prefs, robots) == DailyPlan([], [])
    ensures firmware != "" && !MaintenanceEnabled(prefs) ==>
      var plan := DailySchedule(firmware, prefs, robots);
      && plan == DailyPlan(PartWarningQueue(|robots|), [])
      && forall j :: 0 <= j < |plan.queue| ==> !StartsWith(plan.queue[j], "$GetHealth")
  {
    if firmware != "" && !MaintenanceEnabled(prefs) {
      DailyUpToWithoutMaintenance(robots, |robots|);
      var plan := DailySchedule(firmware, prefs, robots);
      forall j | 0 <= j < |plan.queue|
        ensures !StartsWith(plan.queue[j], "$GetHealth")
      {
        assert plan.queue[j][4] == 'P';
      }
    }
  }

  /** A part code `<type>,<joint>` with a type 1 … 6 and a joint 1 … joints. */
  predicate PartCode(el: string, joints: nat)
  {
    |el| == 3 && el[1] == ',' && '1' <= el[0] <= '6' && '1' <= el[2] && el[2] as int - '0' as int <= joints
  }

  /**
   * The three part lists request only joints the robot has: 3, 4 and 6.
   * Each has no repeated entry and starts with the backup battery.
   */
  lemma PartListsWellFormed()
    ensures |PartHealth3AxisScara| == 11 && |PartHealth4AxisScara| == 17 && |PartHealth6Axis| == 25
    ensures forall k :: 0 <= k < |PartHealth3AxisScara| ==> PartCode(PartHealth3AxisScara[k], 3)
    ensures forall k :: 0 <= k < |PartHealth4AxisScara| ==> PartCode(PartHealth4AxisScara[k], 4)
    ensures forall k :: 0 <= k < |PartHealth6Axis| ==> PartCode(PartHealth6Axis[k], 6)
    ensures PartHealth3AxisScara[0] == "1,1" && PartHealth4AxisScara[0] == "1,1" && PartHealth6Axis[0] == "1,1"
    ensures forall j, k :: 0 <= j < k < |PartHealth6Axis| ==> PartHealth6Axis[j] != PartHealth6Axis[k]
    ensures forall j, k :: 0 <= j < k < |PartHealth4AxisScara| ==> PartHealth4AxisScara[j] != PartHealth4AxisScara[k]
    ensures forall j, k :: 0 <= j < k < |PartHealth3AxisScara| ==> PartHealth3AxisScara[j] != PartHealth3AxisScara[k]
  {
    PartList3();
    PartList4();
    PartList6();
  }

  /** The 3-axis SCARA list: 11 distinct codes for joints 1-3, starting with the backup battery. */
  lemma PartList3()
    ensures |PartHealth3AxisScara| == 11 && PartHealth3AxisScara[0] == "1,1"
    ensures forall k :: 0 <= k < |PartHealth3AxisScara| ==> PartCode(PartHealth3AxisScara[k], 3)
    ensures forall j, k :: 0 <= j < k < |PartHealth3AxisScara| ==> PartHealth3AxisScara[j] != PartHealth3AxisScara[k]
  {
  }

  /** The 4-axis SCARA list: 17 distinct codes for joints 1-4, starting with the backup battery. */
  lemma PartList4()
    ensures |PartHealth4AxisScara| == 17 && PartHealth4AxisScara[0] == "1,1"
    ensures forall k :: 0 <= k < |PartHealth4AxisScara| ==> PartCode(PartHealth4AxisScara[k], 4)
    ensures forall j, k :: 0 <= j < k < |PartHealth4AxisScara| ==> PartHealth4AxisScara[j] != PartHealth4AxisScara[k]
  {
  }

  /** The 6-axis list: 25 distinct codes for joints 1-6, starting with the backup battery. */
  lemma PartList6()
    ensures |PartHealth6Axis| == 25 && PartHealth6Axis[0] == "1,1"
    ensures forall k :: 0 <= k < |PartHealth6Axis| ==> PartCode(PartHealth6Axis[k], 6)
    ensures forall j, k :: 0 <= j < k < |PartHealth6Axis| ==> PartHealth6Axis[j] != PartHealth6Axis[k]
  {
  }

  /**
   * With maintenance data enabled, a robot adds its part warning request
   * followed by one `$GetHealthRB` request per entry of its part list:
   * 11 for a 3-joint SCARA or RS-series robot, 17 for a 4-joint one, 25
   * for a 6-axis or N-series robot, none otherwise. Joint, Cartesian and
   * unknown types add a notice instead.
   */
  lemma RobotDailyWithMaintenance(i: nat, r: Robot)
    ensures var step := RobotDaily(i, r, true);
      && step.queue[0] == PartWarningCommand(i + 1)
      && (forall k :: 1 <= k < |step.queue| ==> step.queue[k] == HealthRBCommand(i + 1, PartsFor(r)[k - 1]))
      && |step.queue| == 1 + (match r.rtype
                              case Some(Scara) | Some(RsSeries) =>
                                if r.joints == Some(3) then 11 else if r.joints == Some(4) then 17 else 0
                              case Some(SixAxis) | Some(NSeries) => 25
                              case _ => 0)
      && (|step.notices| == 1 <==> r.rtype !in {Some(Scara), Some(RsSeries), Some(SixAxis), Some(NSeries)})
      && |step.notices| <= 1
  {
    PartListsWellFormed();
  }

  // ---------------------------------------------------------------------------
  // Error queue

  /** The follow-up queue after a periodic status poll. */
  function ErrorQueue(errCode: Option<string>, localeNumber: nat, firmware: string): seq<string>
  {
    if errCode == Some("0000") then []
    else [ErrMsgCommand(errCode, localeNumber)] + (if firmware != "" then [ErrFuncCommand(errCode)] else [])
  }

  /** Builds the error queue by pushes. */
  method BuildErrorQueue(errCode: Option<string>, localeNumber: nat, firmware: string) returns (q: seq<string>)
    ensures q == ErrorQueue(errCode, localeNumber, firmware)
  {
    q := [];
    if errCode != Some("0000") {
      q := q + [ErrMsgCommand(errCode, localeNumber)];
      if firmware != "" {
        q := q + [ErrFuncCommand(errCode)];
      }
    }
  }

  lemma NoCommaInNumber(n: nat)
    ensures ',' !in NatToString(n)
  {
    var s := NatToString(n);
    forall k | 0 <= k < |s|
      ensures s[k] != ','
    {
      assert IsDigit(s[k]);
    }
  }

  /**
   * The error queue is empty exactly when the error code is "0000".
   * Otherwise it asks for the message of that code in the locale's
   * language (the controller reads back the code and the locale number as
   * the request's fields), and for new firmware also for the function
   * where the error occurred.
   */
  lemma ErrorQueueShape(code: string, localeNumber: nat, firmware: string)
    requires ',' !in code
    ensures var q := ErrorQueue(Some(code), localeNumber, firmware);
      && (q == [] <==> code == "0000")
      && (code != "0000" ==>
            && Split(q[0], ',') == ["$GetErrMsg", code, NatToString(localeNumber)]
            && (|q| == 2 <==> firmware != "")
            && |q| <= 2
            && (|q| == 2 ==> Split(q[1], ',') == ["$GetErrFunc", code]))
  {
    if code != "0000" {
      var ln := NatToString(localeNumber);
      NoCommaInNumber(localeNumber);
      assert ',' !in "$GetErrMsg" && ',' !in "$GetErrFunc";
      assert ErrMsgCommand(Some(code), localeNumber) == "$GetErrMsg" + [','] + (code + [','] + ln);
      SplitCons("$GetErrMsg", ',', code + [','] + ln);
      SplitCons(code, ',', ln);
      SplitNoSeparator(ln, ',');
      assert ErrFuncCommand(Some(code)) == "$GetErrFunc" + [','] + code;
      SplitCons("$GetErrFunc", ',', code);
      SplitNoSeparator(code, ',');
    }
  }
}
