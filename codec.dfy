/**
 * Wire framing and the fixed tables of the controller's remote Ethernet
 * protocol: line terminators, locales, the error codes of `!` replies, and
 * the pre-send delay rule of `command()`. Character encodings themselves
 * (Windows-1252, Shift_JIS, GB18030, Big5) are not modelled: wire text is
 * taken as already decoded.
 */
module Codec {
  import opened Js

  /** The configured line terminator, by its configuration name. */
  const Terminators: map<string, string> := map["CR" := "\r", "LF" := "\n", "CRLF" := "\r\n"]

  /** `TERMINATORS[name]`: undefined for an unknown name. */
  function TerminatorOf(name: string): Option<string>
  {
    if name in Terminators then Some(Terminators[name]) else None
  }

  datatype Encoding = Win1252 | ShiftJis | Gb18030 | Big5

  /** A locale's number (sent with `$GetErrMsg`) and text encoding. */
  datatype Locale = Locale(number: nat, encoding: Encoding)

  const Locales: map<string, Locale> := map[
    "en" := Locale(0, Win1252),
    "ja" := Locale(1, ShiftJis),
    "de" := Locale(2, Win1252),
    "fr" := Locale(3, Win1252),
    "zh-CN" := Locale(4, Gb18030),
    "zh-TW" := Locale(5, Big5)
  ]

  /** Meanings of the error codes a `!` reply carries in its second field. */
  const RemoteCommandErrMsg: map<string, string> := map[
    "10" := "Remote command does not begin with '$'",
    "11" := "Remote command is wrong, or Login is not executed",
    "12" := "Remote command format is wrong",
    "13" := "Login command password is wrong",
    "14" := "Specified number to acquire is out of range (1 or more and 100 or less) or omitted, or specified a string parameter",
    "15" := "Parameter is not existed, or dimension of parameter is wrong, or element out of range is called",
    "19" := "Request time out",
    "20" := "Controller is not ready",
    "21" := "Cannot execute since the Execute is running",
    "98" := "Password is required for Login when using the global IP address",
    "99" := "System error, or communication error"
  ]

  /** `REMOTE_COMMAND_ERR_MSG[code]`: undefined for a code outside the table. */
  function ErrMessage(code: Option<string>): Option<string>
  {
    match code
    case Some(c) => if c in RemoteCommandErrMsg then Some(RemoteCommandErrMsg[c]) else None
    case None => None
  }

  /** Codes that end the session: wrong password, or password required. */
  predicate IsLoginFailure(code: Option<string>)
  {
    code == Some("13") || code == Some("98")
  }

  /** Replies after which the next command is held back 10 ms. */
  const DelayRequiredResponses: seq<string> := [
    "GetPrjName", "GetRobotInfo", "GetContVer", "GetForceSerial", "GetRobotName",
    "GetRobotSerial", "GetHealthCont", "GetHealthRB", "GetSubnetMask", "GetDefaultGateway"
  ]

  /** The pre-send delay in milliseconds. */
  const SendDelayMs: nat := 10

  /**
   * Whether the next command waits before it is written. The decision reads
   * the PREVIOUS reply: its first field with the first character cut off,
   * whatever that character is, looked up in the table.
   */
  predicate NeedsDelay(lastResponse: string)
  {
    var head := Split(lastResponse, ',')[0];
    |head| > 0 && head[1..] in DelayRequiredResponses
  }

  /** A reply `<c><name>,<fields>` delays the next command exactly when name is in the table. */
  lemma DelayFollowsPreviousReply(c: char, name: string, fields: string)
    requires c != ',' && ',' !in name
    ensures NeedsDelay([c] + name + "," + fields) <==> name in DelayRequiredResponses
  {
    SplitFirstField([c] + name, ',', fields);
    assert ([c] + name)[1..] == name;
  }

  /** The bytes written for a command: the command text and the terminator. */
  function Frame(cmd: string, terminator: Option<string>): string
  {
    cmd + Str(terminator)
  }

  predicate IsLineBreak(c: char)
  {
    c == '\r' || c == '\n'
  }

  /** `text.replace(/\r|\n/g, '')`: how a received reply is cleaned. */
  function StripCrLf(s: string): (r: string)
    decreases |s|
  {
    if |s| == 0 then ""
    else if IsLineBreak(s[0]) then StripCrLf(s[1..])
    else [s[0]] + StripCrLf(s[1..])
  }

  lemma {:induction false} StripCrLfConcat(a: string, b: string)
    ensures StripCrLf(a + b) == StripCrLf(a) + StripCrLf(b)
    decreases |a|
  {
    if |a| > 0 {
      assert (a + b)[0] == a[0] && (a + b)[1..] == a[1..] + b;
      StripCrLfConcat(a[1..], b);
      if !IsLineBreak(a[0]) {
        assert StripCrLf(a + b) == [a[0]] + (StripCrLf(a[1..]) + StripCrLf(b));
      }
    } else {
      assert a + b == b;
    }
  }

  /** Cleaning leaves no line break and keeps every other character in order. */
  lemma {:induction false} StripCrLfClean(s: string)
    ensures forall i :: 0 <= i < |StripCrLf(s)| ==> !IsLineBreak(StripCrLf(s)[i])
    ensures (forall i :: 0 <= i < |s| ==> !IsLineBreak(s[i])) ==> StripCrLf(s) == s
    decreases |s|
  {
    if |s| > 0 {
      StripCrLfClean(s[1..]);
    }
  }

  /**
   * Round trip: for every configured terminator, cleaning the framed command
   * gives back the command without its line breaks, and gives back the command
   * itself when it holds none.
   */
  lemma FrameRoundTrip(cmd: string, name: string)
    requires name in Terminators
    ensures StripCrLf(Frame(cmd, TerminatorOf(name))) == StripCrLf(cmd)
    ensures (forall i :: 0 <= i < |cmd| ==> !IsLineBreak(cmd[i])) ==>
              StripCrLf(Frame(cmd, TerminatorOf(name))) == cmd
  {
    var t := Terminators[name];
    StripCrLfConcat(cmd, t);
    assert StripCrLf(t) == "" by {
      assert t == "\r" || t == "\n" || t == "\r\n";
      assert StripCrLf("\n") == "";
    }
    StripCrLfClean(cmd);
  }

  /** Cleaning twice is the same as cleaning once. */
  lemma StripCrLfIdempotent(s: string)
    ensures StripCrLf(StripCrLf(s)) == StripCrLf(s)
  {
    StripCrLfClean(s);
    StripCrLfClean(StripCrLf(s));
  }
}
