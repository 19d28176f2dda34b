/**
 * How the robot, part and joint numbers travel from the status monitor's
 * commands to the reply handlers: the handlers of `#GetHofs`,
 * `#GetPartWarning` and `#GetHealthRB` do not read them from the reply but
 * take the decimal digits of the last command sent, one digit each.
 */
module IndexRecovery {
  import opened Js
  import opened Parser
  import opened Queues

  lemma {:induction false} DigitsAppend(a: string, b: string)
    ensures Digits(a + b) == Digits(a) + Digits(b)
    decreases |a|
  {
    if |a| == 0 {
      assert a + b == b;
    } else {
      assert (a + b)[0] == a[0];
      assert (a + b)[1..] == a[1..] + b;
      DigitsAppend(a[1..], b);
    }
  }

  lemma {:induction false} NoDigits(s: string)
    requires forall i :: 0 <= i < |s| ==> !IsDigit(s[i])
    ensures Digits(s) == []
    decreases |s|
  {
    if |s| > 0 {
      NoDigits(s[1..]);
    }
  }

  lemma OneDigit(n: nat)
    requires n <= 9
    ensures Digits(NatToString(n)) == [n]
  {
    var s := NatToString(n);
    assert s == [('0' as int + n) as char];
    assert Digits(s[1..]) == [];
  }

  /** The digits of `<prefix><n>` for a prefix without digits and a one-digit n. */
  lemma PrefixedDigit(prefix: string, n: nat)
    requires n <= 9
    requires forall i :: 0 <= i < |prefix| ==> !IsDigit(prefix[i])
    ensures Digits(prefix + NatToString(n)) == [n]
  {
    DigitsAppend(prefix, NatToString(n));
    NoDigits(prefix);
    OneDigit(n);
  }

  /**
   * For robots 1 … 9, `$GetHofs,<n>` and `$GetPartWarning,<n>` lead the
   * handler back to robot n.
   */
  lemma RobotNumberRecovered(n: nat)
    requires 1 <= n <= 9
    ensures FirstDigit(HofsCommand(n)) == n
    ensures FirstDigit(PartWarningCommand(n)) == n
  {
    PrefixedDigit("$GetHofs,", n);
    PrefixedDigit("$GetPartWarning,", n);
  }

  /**
   * A two-digit robot number is read as its tens digit: the requests for
   * robots 10 … 19 all lead the handler to robot 1, so their values land on
   * the first robot.
   */
  lemma TwoDigitRobotReadsAsTens(n: nat)
    requires 10 <= n <= 99
    ensures FirstDigit(HofsCommand(n)) == n / 10
    ensures FirstDigit(PartWarningCommand(n)) == n / 10
  {
    var t := NatToString(n);
    var tail := [('0' as int + n % 10) as char];
    assert t == NatToString(n / 10) + tail;
    DigitsAppend(NatToString(n / 10), tail);
    OneDigit(n / 10);
    assert "$GetHofs," + t == ("$GetHofs," + NatToString(n / 10)) + tail;
    assert "$GetPartWarning," + t == ("$GetPartWarning," + NatToString(n / 10)) + tail;
    DigitsAppend("$GetHofs," + NatToString(n / 10), tail);
    DigitsAppend("$GetPartWarning," + NatToString(n / 10), tail);
    PrefixedDigit("$GetHofs,", n / 10);
    PrefixedDigit("$GetPartWarning,", n / 10);
  }

  /**
   * For robots 1 … 9 and any entry `<p>,<j>` of a part list, the digits of
   * `$GetHealthRB,<n>,<p>,<j>` are n, p and j, so the handler stores the
   * reading for robot n under part p: in `common` for the backup battery
   * (part 1) and in `joint<j>` otherwise.
   */
  lemma HealthIndexRecovered(n: nat, el: string)
    requires 1 <= n <= 9 && PartCode(el, 6)
    ensures var ds := Digits(HealthRBCommand(n, el));
      var p := DigitValue(el[0]);
      var j := DigitValue(el[2]);
      && ds == [n, p, j]
      && PartName(Some(ds[1])) == PartName(Some(p))
      && PartName(Some(p)) != "undefined"
      && JointKey(ds) == (if p == 1 then "common" else "joint" + [el[2]])
  {
    var c := HealthRBCommand(n, el);
    var head := "$GetHealthRB,";
    assert c == (head + NatToString(n)) + ("," + el);
    DigitsAppend(head + NatToString(n), "," + el);
    PrefixedDigit(head, n);
    var p := DigitValue(el[0]);
    var j := DigitValue(el[2]);
    assert "," + el == [','] + [el[0]] + [','] + [el[2]];
    assert Digits([el[2]]) == [j] by {
      assert [el[2]][1..] == [];
    }
    assert Digits([','] + [el[2]]) == [j] by {
      assert ([','] + [el[2]])[1..] == [el[2]];
    }
    assert Digits([el[0]] + [','] + [el[2]]) == [p, j] by {
      assert ([el[0]] + [','] + [el[2]])[1..] == [','] + [el[2]];
    }
    assert Digits("," + el) == [p, j] by {
      assert ("," + el)[1..] == [el[0]] + [','] + [el[2]];
    }
    if p != 1 {
      assert NatToString(j) == [el[2]];
    }
  }

  /**
   * Every `$GetHealthRB` request a daily queue holds for robots 1 … 9 is
   * read back as its own robot, part and joint.
   */
  lemma DailyHealthRecovered(n: nat, parts: seq<string>, k: nat)
    requires 1 <= n <= 9
    requires parts == PartHealth3AxisScara || parts == PartHealth4AxisScara || parts == PartHealth6Axis
    requires k < |parts|
    ensures var ds := Digits(HealthQueue(n, parts)[k]);
      && ds == [n, DigitValue(parts[k][0]), DigitValue(parts[k][2])]
      && JointKey(ds) == (if parts[k][0] == '1' then "common" else "joint" + [parts[k][2]])
  {
    PartListsWellFormed();
    assert PartCode(parts[k], 6);
    HealthIndexRecovered(n, parts[k]);
  }
}
