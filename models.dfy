/**
 * Robot inventory tables of `$GetRobotInfo`: the type codes, the ordered
 * model-to-series classification and the joint-count rules.
 *
 * The classification is an ordered list of (pattern, series) pairs and the
 * first pattern that matches wins. The patterns are the source's regular
 * expressions written as data. Several of them contain an alternation
 * without a group, such as `^X5G.{7}A|C$`, which a regular expression engine
 * reads as `(^X5G.{7}A)|(C$)`: the model keeps that reading.
 */
module RobotModels {
  import opened Js

  datatype RobotType = Joint | Cartesian | Scara | SixAxis | RsSeries | NSeries

  /** The `robotTypes` table: a type code field to a type, undefined otherwise. */
  function RobotTypeOf(code: Option<string>): Option<RobotType>
  {
    match code
    case None => None
    case Some(c) =>
      if c == "1" then Some(Joint)
      else if c == "2" then Some(Cartesian)
      else if c == "3" then Some(Scara)
      else if c == "5" then Some(SixAxis)
      else if c == "6" then Some(RsSeries)
      else if c == "7" then Some(NSeries)
      else None
  }

  // ---------------------------------------------------------------------------
  // The regular expressions used on model strings

  /** One position of an anchored pattern: a literal, `\d`, or `.`. */
  datatype Atom = Lit(c: char) | AnyDigit | AnyChar

  /** `^atoms` (and `$` when toEnd), `c$`, or an alternation of two patterns. */
  datatype Pattern =
    | Starts(atoms: seq<Atom>, toEnd: bool)
    | EndsWith(c: char)
    | Alt(left: Pattern, right: Pattern)

  /** `.` matches anything but a line terminator. */
  predicate IsLineTerminator(c: char)
  {
    c == '\n' || c == '\r' || c == '\U{2028}' || c == '\U{2029}'
  }

  predicate AtomMatches(a: Atom, c: char)
  {
    match a
    case Lit(l) => c == l
    case AnyDigit => IsDigit(c)
    case AnyChar => !IsLineTerminator(c)
  }

  predicate AtomsMatch(atoms: seq<Atom>, s: string)
    requires |atoms| <= |s|
  {
    forall i :: 0 <= i < |atoms| ==> AtomMatches(atoms[i], s[i])
  }

  /** `pattern.test(s)`. */
  predicate Matches(p: Pattern, s: string)
  {
    match p
    case Starts(atoms, toEnd) =>
      |atoms| <= |s| && (toEnd ==> |atoms| == |s|) && AtomsMatch(atoms, s)
    case EndsWith(c) => |s| > 0 && s[|s| - 1] == c
    case Alt(l, r) => Matches(l, s) || Matches(r, s)
  }

  function Lits(s: string): (r: seq<Atom>)
    ensures |r| == |s| && forall i :: 0 <= i < |s| ==> r[i] == Lit(s[i])
  {
    seq(|s|, i requires 0 <= i < |s| => Lit(s[i]))
  }

  /** `^prefix` */
  function Prefix(p: string): Pattern
  {
    Starts(Lits(p), false)
  }

  /** `.{7}` */
  const Any7: seq<Atom> := [AnyChar, AnyChar, AnyChar, AnyChar, AnyChar, AnyChar, AnyChar]

  /** `^<p>.{7}<c>` */
  function Gap7(p: string, c: char, toEnd: bool): Pattern
  {
    Starts(Lits(p) + Any7 + [Lit(c)], toEnd)
  }

  /** The `getSeriesName` switch, in order: first the plain prefix cases ... */
  const PrefixRules: seq<(Pattern, string)> := [
    (Prefix("C3"), "C3"),
    (Prefix("C4-A6"), "C4"),
    (Prefix("C4-A9"), "C4L"),
    (Prefix("C8-A7"), "C8"),
    (Prefix("C8-A9"), "C8L"),
    (Prefix("C8-A14"), "C8XL"),
    (Prefix("C12"), "C12"),
    (Prefix("G10"), "G10"),
    (Prefix("G1"), "G1"),
    (Prefix("G3"), "G3"),
    (Prefix("G6"), "G6"),
    (Prefix("G20"), "G20"),
    (Starts(Lits("LS3-") + [AnyDigit], false), "LS3"),
    (Prefix("LS3-B"), "LS3-B"),
    (Starts(Lits("LS6-") + [AnyDigit], false), "LS6"),
    (Prefix("LS6-B"), "LS6-B"),
    (Prefix("LS10-B"), "LS10-B"),
    (Prefix("LS20-B"), "LS20-B"),
    (Starts(Lits("LS20-") + [AnyChar], false), "LS20"),
    (Prefix("N2"), "N2"),
    (Prefix("N6-A850"), "N6_A850"),
    (Prefix("N6-A1000"), "N6_A1000"),
    (Prefix("RS3"), "RS3"),
    (Prefix("RS4"), "RS4"),
    (Prefix("S5"), "S5"),
    (Prefix("T3"), "T3"),
    (Prefix("T6"), "T6"),
    (Prefix("VT6"), "VT6"),
    (Prefix("X5S"), "X5S")
  ]

  /** ... then the Cartesian X5 cases, most of them with an ungrouped alternation. */
  const X5Rules: seq<(Pattern, string)> := [
    (Alt(Gap7("X5G", 'A', false), EndsWith('C')), "X5G_A_D"),
    (Alt(Gap7("X5G", 'B', false), EndsWith('C')), "X5G_B_C"),
    (Gap7("X5Z", 'A', true), "X5Z_A"),
    (Gap7("X5Z", 'B', true), "X5Z_B"),
    (Alt(Gap7("X5P", 'A', false), EndsWith('D')), "X5P_A_D"),
    (Alt(Gap7("X5P", 'B', false), EndsWith('C')), "X5P_B_C"),
    (Alt(Gap7("X5U", 'A', false), EndsWith('D')), "X5U_A_D"),
    (Alt(Gap7("X5U", 'B', false), EndsWith('C')), "X5U_B_C")
  ]

  const SeriesRules: seq<(Pattern, string)> := PrefixRules + X5Rules

  /** The series of the first matching rule, or "Unknown". */
  function FirstMatch(rules: seq<(Pattern, string)>, model: string): string
    decreases |rules|
  {
    if |rules| == 0 then "Unknown"
    else if Matches(rules[0].0, model) then rules[0].1
    else FirstMatch(rules[1..], model)
  }

  /** `getSeriesName(model)`. */
  function SeriesName(model: string): string
  {
    FirstMatch(SeriesRules, model)
  }

  /** First match wins: the earliest matching rule decides the series. */
  lemma {:induction false} FirstMatchIsEarliest(rules: seq<(Pattern, string)>, model: string, k: nat)
    requires k < |rules| && Matches(rules[k].0, model)
    requires forall j :: 0 <= j < k ==> !Matches(rules[j].0, model)
    ensures FirstMatch(rules, model) == rules[k].1
    decreases k
  {
    if k > 0 {
      FirstMatchIsEarliest(rules[1..], model, k - 1);
    }
  }

  /** When no rule matches, the series is "Unknown". */
  lemma {:induction false} FirstMatchNone(rules: seq<(Pattern, string)>, model: string)
    requires forall j :: 0 <= j < |rules| ==> !Matches(rules[j].0, model)
    ensures FirstMatch(rules, model) == "Unknown"
    decreases |rules|
  {
    if |rules| > 0 {
      FirstMatchNone(rules[1..], model);
    }
  }

  /** Conversely, a named series comes from a rule that matches, with none matching before it. */
  lemma {:induction false} FirstMatchSound(rules: seq<(Pattern, string)>, model: string)
    requires forall j :: 0 <= j < |rules| ==> rules[j].1 != "Unknown"
    ensures FirstMatch(rules, model) != "Unknown" ==>
              exists k :: 0 <= k < |rules| && Matches(rules[k].0, model) && FirstMatch(rules, model) == rules[k].1
                && forall j :: 0 <= j < k ==> !Matches(rules[j].0, model)
    ensures FirstMatch(rules, model) == "Unknown" ==>
              forall j :: 0 <= j < |rules| ==> !Matches(rules[j].0, model)
    decreases |rules|
  {
    if |rules| > 0 && !Matches(rules[0].0, model) {
      FirstMatchSound(rules[1..], model);
      var r := FirstMatch(rules, model);
      if r != "Unknown" {
        var k' :| 0 <= k' < |rules[1..]| && Matches(rules[1..][k'].0, model) && r == rules[1..][k'].1
                  && forall j :: 0 <= j < k' ==> !Matches(rules[1..][j].0, model);
        assert forall j :: 0 <= j < k' + 1 ==> !Matches(rules[j].0, model) by {
          forall j | 0 <= j < k' + 1 ensures !Matches(rules[j].0, model) {
            if j > 0 { assert rules[j] == rules[1..][j - 1]; }
          }
        }
      } else {
        forall j | 0 <= j < |rules| ensures !Matches(rules[j].0, model) {
          if j > 0 { assert rules[j] == rules[1..][j - 1]; }
        }
      }
    }
  }

  /** A prefix pattern holds exactly when the model starts with the prefix. */
  lemma PrefixMatches(p: string, s: string)
    ensures Matches(Prefix(p), s) <==> StartsWith(s, p)
  {
    if Matches(Prefix(p), s) {
      assert s[..|p|] == p;
    }
  }

  /** "G10..." is series G10, although the later rule "G1" matches it too. */
  lemma G10BeforeG1(model: string)
    requires StartsWith(model, "G10")
    ensures SeriesName(model) == "G10"
  {
    assert model[0] == 'G' && model[1] == '1' && model[2] == '0';
    FirstMatchIsEarliest(SeriesRules, model, 7);
  }

  /** "G1" not followed by '0' is series G1. */
  lemma G1Series(model: string)
    requires StartsWith(model, "G1") && !StartsWith(model, "G10")
    ensures SeriesName(model) == "G1"
  {
    assert model[0] == 'G' && model[1] == '1';
    assert !Matches(SeriesRules[7].0, model);
    FirstMatchIsEarliest(SeriesRules, model, 8);
  }

  /** "LS20-B..." is series LS20-B, although the later rule `^LS20-.` matches it too. */
  lemma LS20BBeforeLS20(model: string)
    requires StartsWith(model, "LS20-B")
    ensures SeriesName(model) == "LS20-B"
  {
    assert model[0] == 'L' && model[1] == 'S' && model[2] == '2' && model[3] == '0';
    assert model[4] == '-' && model[5] == 'B';
    FirstMatchIsEarliest(SeriesRules, model, 17);
  }

  /** The series names a rule list can produce. */
  function Names(rules: seq<(Pattern, string)>): set<string>
  {
    set j | 0 <= j < |rules| :: rules[j].1
  }

  /** The result is one of the rules' names, or "Unknown". */
  lemma {:induction false} FirstMatchInNames(rules: seq<(Pattern, string)>, model: string)
    ensures FirstMatch(rules, model) in Names(rules) + {"Unknown"}
    decreases |rules|
  {
    if |rules| > 0 {
      assert rules[0].1 in Names(rules);
      FirstMatchInNames(rules[1..], model);
      assert Names(rules[1..]) <= Names(rules) by {
        forall x | x in Names(rules[1..]) ensures x in Names(rules) {
          var j :| 0 <= j < |rules[1..]| && rules[1..][j].1 == x;
          assert rules[j + 1].1 == x;
        }
      }
    }
  }

  /** Classifying against two lists in a row: the second is consulted only when the first gives "Unknown". */
  lemma {:induction false} FirstMatchAppend(a: seq<(Pattern, string)>, b: seq<(Pattern, string)>, model: string)
    requires "Unknown" !in Names(a)
    ensures FirstMatch(a + b, model) ==
              if FirstMatch(a, model) != "Unknown" then FirstMatch(a, model) else FirstMatch(b, model)
    decreases |a|
  {
    if |a| == 0 {
      assert a + b == b;
    } else {
      assert a[0].1 in Names(a);
      assert (a + b)[0] == a[0] && (a + b)[1..] == a[1..] + b;
      assert Names(a[1..]) <= Names(a) by {
        forall x | x in Names(a[1..]) ensures x in Names(a) {
          var j :| 0 <= j < |a[1..]| && a[1..][j].1 == x;
          assert a[j + 1].1 == x;
        }
      }
      FirstMatchAppend(a[1..], b, model);
    }
  }

  /** No plain prefix rule is named "Unknown" or after an X5 B/C series. */
  lemma PrefixRuleNames()
    ensures Names(PrefixRules) !! {"X5G_B_C", "X5P_B_C", "X5U_B_C", "Unknown"}
  {
  }

  /**
   * Any model that no plain prefix rule matches and that ends in 'C' is
   * classified X5G_A_D, whatever it starts with (an X5P or X5U model too).
   */
  lemma EndingInCIsX5GAD(model: string)
    requires |model| > 0 && model[|model| - 1] == 'C'
    requires FirstMatch(PrefixRules, model) == "Unknown"
    ensures SeriesName(model) == "X5G_A_D"
  {
    PrefixRuleNames();
    FirstMatchAppend(PrefixRules, X5Rules, model);
    assert Matches(X5Rules[0].0, model);
    assert FirstMatch(X5Rules, model) == "X5G_A_D";
  }

  /** Because of that, no model ending in 'C' is ever classified X5G_B_C, X5P_B_C or X5U_B_C. */
  lemma BCSeriesNeverEndInC(model: string)
    requires |model| > 0 && model[|model| - 1] == 'C'
    ensures SeriesName(model) !in {"X5G_B_C", "X5P_B_C", "X5U_B_C"}
  {
    PrefixRuleNames();
    FirstMatchAppend(PrefixRules, X5Rules, model);
    FirstMatchInNames(PrefixRules, model);
    assert Matches(X5Rules[0].0, model);
    assert FirstMatch(X5Rules, model) == "X5G_A_D";
  }

  /** A model no rule matches is "Unknown". */
  lemma NoMatchIsUnknown(model: string)
    requires forall j :: 0 <= j < |SeriesRules| ==> !Matches(SeriesRules[j].0, model)
    ensures SeriesName(model) == "Unknown"
  {
    FirstMatchNone(SeriesRules, model);
  }

  // ---------------------------------------------------------------------------
  // Joint counts

  /** `^G1-\d{3}.Z$`: the 3-joint SCARA models. */
  const ThreeJointScara: Pattern := Starts(Lits("G1-") + [AnyDigit, AnyDigit, AnyDigit, AnyChar, Lit('Z')], true)

  /** `getJointsNumber(type, model)`; `None` is NaN. */
  function JointsNumber(t: Option<RobotType>, model: string): Option<nat>
  {
    match t
    case Some(Cartesian) =>
      if Matches(Prefix("X5S"), model) then Some(1)
      else if Matches(Prefix("X5G"), model) || Matches(Prefix("X5Z"), model) then Some(2)
      else if Matches(Prefix("X5P"), model) then Some(3)
      else if Matches(Prefix("X5U"), model) then Some(4)
      else None
    case Some(Scara) => if Matches(ThreeJointScara, model) then Some(3) else Some(4)
    case Some(RsSeries) => Some(4)
    case Some(SixAxis) => Some(6)
    case Some(NSeries) => Some(6)
    case _ => None
  }

  /**
   * The joint table stated on plain strings: a SCARA robot has 3 joints
   * exactly when its model is "G1-", three digits, one more character and
   * 'Z' (8 characters in all), and 4 otherwise; RS-series have 4; 6-axis and
   * N-series 6; a Cartesian robot's count follows its X5 prefix; Joint type
   * and unknown types have none.
   */
  lemma JointsTable(t: Option<RobotType>, model: string)
    ensures t == Some(Scara) ==>
      (JointsNumber(t, model) == Some(3) <==>
        |model| == 8 && StartsWith(model, "G1-") && IsDigit(model[3]) && IsDigit(model[4])
        && IsDigit(model[5]) && !IsLineTerminator(model[6]) && model[7] == 'Z')
    ensures t == Some(Scara) ==> JointsNumber(t, model) in {Some(3), Some(4)}
    ensures t == Some(RsSeries) ==> JointsNumber(t, model) == Some(4)
    ensures t in {Some(SixAxis), Some(NSeries)} ==> JointsNumber(t, model) == Some(6)
    ensures t == Some(Cartesian) ==>
      JointsNumber(t, model) ==
        (if StartsWith(model, "X5S") then Some(1)
         else if StartsWith(model, "X5G") || StartsWith(model, "X5Z") then Some(2)
         else if StartsWith(model, "X5P") then Some(3)
         else if StartsWith(model, "X5U") then Some(4)
         else None)
    ensures t in {None, Some(Joint)} ==> JointsNumber(t, model) == None
  {
    if t == Some(Scara) {
      ScaraJoints(model);
    } else if t == Some(Cartesian) {
      CartesianJoints(model);
    }
  }

  lemma ScaraJoints(model: string)
    ensures JointsNumber(Some(Scara), model) == Some(3) <==>
      |model| == 8 && StartsWith(model, "G1-") && IsDigit(model[3]) && IsDigit(model[4])
      && IsDigit(model[5]) && !IsLineTerminator(model[6]) && model[7] == 'Z'
    ensures JointsNumber(Some(Scara), model) in {Some(3), Some(4)}
  {
    if |model| == 8 && StartsWith(model, "G1-") {
      assert model[0] == 'G' && model[1] == '1' && model[2] == '-';
    }
  }

  lemma CartesianJoints(model: string)
    ensures JointsNumber(Some(Cartesian), model) ==
      (if StartsWith(model, "X5S") then Some(1)
       else if StartsWith(model, "X5G") || StartsWith(model, "X5Z") then Some(2)
       else if StartsWith(model, "X5P") then Some(3)
       else if StartsWith(model, "X5U") then Some(4)
       else None)
  {
    PrefixMatches("X5S", model);
    PrefixMatches("X5G", model);
    PrefixMatches("X5Z", model);
    PrefixMatches("X5P", model);
    PrefixMatches("X5U", model);
  }
}
