# Epson robot controller status monitor, modelled in Dafny

This project models the protocol engine of the Node-RED nodes for Epson
robot controllers, and the connection handling of the status-monitor node.

The protocol engine is the `EpsonRCState` object. It talks to a controller
over the Remote Ethernet protocol:

- A command is sent as `$<Command>[,args]` plus the configured terminator.
- The controller answers `#<Command>,fields…` on success and
  `!<Command>,<code>` on error.

Each reply updates a state tree: the session flags, the controller record
(identity, network, preferences, health, status) and the list of robots.

The status-monitor node drives that object. After login it sends fixed
command queues, then builds three more from what the controller reported:

- an optional once-queue;
- a daily health queue;
- a periodic queue, followed after each poll by an error follow-up queue.

Socket events flip its connection flags. A 60-second countdown precedes
every reconnection.

Modules:

- `Js` (`js.dfy`) — the JavaScript behaviour the code relies on:
  - `split` and `join`, field access past the end giving `undefined`;
  - `trim` and whitespace removal;
  - `Number()` as an optional integer parse, and `Boolean(x*1)`;
  - `parseInt(x, 2)` and bit tests;
  - digit extraction, and decimal rendering of numbers.
- `Codec` (`codec.dfy`) — the terminator, locale and error-message tables,
  the 10 ms pre-send delay rule, framing, and the CR/LF stripping of replies.
- `RobotModels` (`models.dfy`) — the robot-type table, series
  classification (an ordered list of patterns, first match wins) and the
  joint count.
- `ErcState` (`state.dfy`):
  - the state tree and its initial value;
  - the phase, signal and preference bit decoding;
  - the date-time rewrite.
- `Parser` (`parser.dfy`) — `_parseResponse` as a function from a session
  and a reply to an `Outcome`: the new session, the warnings emitted, and
  the error thrown if any.
- `ParserLemmas` (`parser_lemmas.dfy`) — one lemma per reply kind, stating
  what that reply does to the session.
- `Channel` (`channel.dfy`):
  - `command()` and `exec()` as specification functions;
  - the `EpsonRC` class, whose handler methods update the session fields in
    place and are proved against `Parse`.
- `Queues` (`queues.dfy`) — the status monitor's queues. Each has a
  specification function and a building method with loops.
- `IndexRecovery` (`digits.dfy`) — how robot, part and joint numbers travel
  from the monitor's commands to the reply handlers, which read them back
  from the digits of the last command.
- `Monitor` (`monitor.dfy`) — the event transitions of the status-monitor
  node over its flags, and the `StatusMonitor` class that performs them.

JavaScript `undefined` is `None`, whether it is a missing reply field or a
property not yet created. The initial empty objects of the state tree are
`None` too: preferences, error function, signals and project.

An exception thrown inside a handler is a `Fault`. Examples are reading a
field the reply does not have, and naming a robot the list does not hold.
Such an exception rejects `command()`, and then `exec()` stops.

Two places where the code is followed rather than the protocol description:

- An error reply's code is the second comma field, not the characters after
  `!`. A bare `!13` therefore gives a warning and is not fatal
  (`ParserLemmas.BareErrorReply`).
- The robot number used by `#GetHofs` and `#GetPartWarning` is the first
  digit of the last command. Robots 10 and above are therefore read as a
  one-digit robot (`IndexRecovery.TwoDigitRobotReadsAsTens`).

## Model

| member | source | states |
|---|---|---|
| Codec.DelayFollowsPreviousReply | erc-state.js:173-194 | the 10 ms wait before a write happens exactly when the previous reply's name, without its first character, is in the delay list; the command being sent plays no part |
| Codec.FrameRoundTrip | erc-state.js:197-211 | a framed command, cleaned as replies are cleaned, gives back the command with its line breaks removed, or the command itself when it has none |
| Codec.StripCrLfClean | erc-state.js:211 | a stored reply never contains CR or LF, and a reply without them is stored unchanged |
| Codec.StripCrLfIdempotent | erc-state.js:211 | cleaning twice is cleaning once |
| Codec.StripCrLfConcat | erc-state.js:211 | cleaning distributes over concatenation |
| RobotModels.FirstMatchIsEarliest | erc-state.js:461-540 | the series is the name of the earliest pattern that matches |
| RobotModels.FirstMatchSound | erc-state.js:461-540 | a series other than Unknown comes from a matching rule with no earlier match; Unknown means no rule matches |
| RobotModels.FirstMatchNone | erc-state.js:538-539 | with no matching rule the series is Unknown |
| RobotModels.FirstMatchInNames | erc-state.js:461-540 | the series is always one of the table's names or Unknown |
| RobotModels.FirstMatchAppend | erc-state.js:461-540 | classifying against two tables in turn is classifying against the first and falling back to the second |
| RobotModels.PrefixMatches | erc-state.js:463-519 | an anchored prefix pattern matches exactly the models that start with that prefix |
| RobotModels.G10BeforeG1 | erc-state.js:463-465 | a model starting with G10 is series G10, never G1 |
| RobotModels.G1Series | erc-state.js:463-465 | a model starting with G1 but not G10 is series G1 |
| RobotModels.LS20BBeforeLS20 | erc-state.js:463-519 | a model starting with LS20-B is series LS20-B, never LS20 |
| RobotModels.PrefixRuleNames | erc-state.js:463-519 | no prefix rule is named Unknown or after an X5 B_C series |
| RobotModels.EndingInCIsX5GAD | erc-state.js:521-536 | because the alternation is ungrouped, any model that ends in C and matches no prefix rule is series X5G_A_D |
| RobotModels.BCSeriesNeverEndInC | erc-state.js:521-536 | a model ending in C is never classified X5G_B_C, X5P_B_C or X5U_B_C |
| RobotModels.NoMatchIsUnknown | erc-state.js:538-539 | a model no rule matches is Unknown |
| RobotModels.ScaraJoints | erc-state.js:557-563 | a SCARA robot has 3 joints exactly when its model is `G1-`, three digits, any one character and `Z`, and 4 otherwise |
| RobotModels.CartesianJoints | erc-state.js:543-556 | a Cartesian robot has 1 joint for X5S, 2 for X5G and X5Z, 3 for X5P, 4 for X5U, and an unknown count for any other model |
| RobotModels.JointsTable | erc-state.js:542-573 | SCARA has 3 joints exactly for G1-ddd?Z models, else 4; RS-series 4; 6-axis and N-series 6; Cartesian by X5 prefix; otherwise unknown |
| ErcState.LowBits | erc-state.js:595 | the low three bits of the status word are its value modulo 8 |
| ErcState.PhaseFromBits | erc-state.js:595-610 | Reset, Ready, Running and Paused each hold exactly for their bit pattern; Unknown holds exactly when two or more of the three bits are set |
| ErcState.InvertedFlagsAlwaysTrue | erc-state.js:341-342 | independentMode and clearGlobalsWhenMainXXFunctionStarted are true for every input |
| ErcState.BitsOfText | erc-state.js:332 | bit k of the parsed binary field is its k-th character from the right |
| ErcState.PreferencesFromText | erc-state.js:330-355 | each of the 19 plain preferences equals its stated bit of the binary field; the two inverted ones are true |
| ErcState.StatusFromText | erc-state.js:592-626 | the phase and the eight signals read from the characters of the binary status field |
| ErcState.DateTimeToIsoLayout | erc-state.js:660-662 | a controller date-time becomes an ISO instant with the same digits |
| ErcState.DateTimeToIsoFirstSpaceOnly | erc-state.js:660-662 | only the first space is replaced by T |
| Parser.WithEach | erc-state.js:306-328 | the per-robot update keeps the number of robots |
| Parser.Inventory | erc-state.js:429-459 | the new robot list has as many entries as the stated count, when that is a positive number |
| Parser.HandleRobots | erc-state.js:283-295 | the handlers that read the robot list keep the connection flag and the last command and response, and emit at most one warning, none when they throw |
| Parser.HandleField | erc-state.js:266-286 | the handlers that set one field never touch the robot list and emit no warning; what each one stores is stated by the per-reply lemmas below |
| Parser.Handle | erc-state.js:265-295 | no handler changes the connection flag or the last command and response; each emits at most one warning, and none when it throws |
| Parser.Parse | erc-state.js:245-304 | a reply is always stored as the last response and never changes the connection flag or the last command |
| ParserLemmas.ReplyFields | erc-state.js:249 | splitting a reply built from comma-free fields gives the fields back |
| ParserLemmas.NonSuccessReply | erc-state.js:248-263 | a reply not starting with `#` changes only the last response; it is fatal exactly for `!` with code 13 or 98, and otherwise gives exactly one warning |
| ParserLemmas.ErrorReplyCode | erc-state.js:252-262 | `!<command>,<code>` is fatal with the table's message for codes 13 and 98, and a warning with its message for any other code |
| ParserLemmas.BareErrorReply | erc-state.js:253-257 | a `!` reply without a comma has no code, so it is a warning without a message and never fatal |
| ParserLemmas.UnsupportedReply | erc-state.js:299-304 | a `#` reply with no handler changes only the last response and gives one warning |
| ParserLemmas.LoginReply | erc-state.js:267 | `#Login` sets loggedIn and nothing else changes |
| ParserLemmas.LogoutReply | erc-state.js:268 | `#Logout` clears loggedIn and nothing else changes |
| ParserLemmas.ContVerReply | erc-state.js:272 | the firmware is field 1 without whitespace, the only change; a missing field throws |
| ParserLemmas.RemoveSpacesKeepsClean | erc-state.js:272 | text without whitespace is kept as it is |
| ParserLemmas.ContSettingsReply | erc-state.js:330-355 | `#GetContSettings` is routed to the settings handler, which replaces the preferences, and nothing else, with the decoding of field 1; for a binary field, individual preferences equal their bits, and the inverted ones are true |
| ParserLemmas.ContSettingsStored | erc-state.js:330-355 | the settings handler stores the decoded bit string as the preferences and changes nothing else; for a binary field each preference equals its bit, and the inverted ones are true |
| ParserLemmas.ContNameReply | erc-state.js:270 | `#GetContName` sets the controller name to field 1 (undefined when missing); nothing else changes |
| ParserLemmas.ContNoReply | erc-state.js:271 | `#GetContNo` sets the controller serial to field 1; nothing else changes |
| ParserLemmas.ContTypeReply | erc-state.js:273 | `#GetContType` sets the controller model to field 1; nothing else changes |
| ParserLemmas.ContDevReply | erc-state.js:274 | `#GetContDev` sets the controlling device to field 1; nothing else changes |
| ParserLemmas.SubnetMaskReply | erc-state.js:275 | `#GetSubnetMask` sets the subnet mask to field 1; nothing else changes |
| ParserLemmas.DefaultGatewayReply | erc-state.js:276 | `#GetDefaultGateway` sets the default gateway to field 1; nothing else changes |
| ParserLemmas.MacAddressReply | erc-state.js:277 | `#GetContMacAdd` sets the MAC address to field 1; nothing else changes |
| ParserLemmas.CameraModelReply | erc-state.js:278 | `#GetCameraModel` sets the camera model to field 1; nothing else changes |
| ParserLemmas.ProjectNameReply | erc-state.js:279 | `#GetPrjName` sets the project name to field 1; nothing else changes |
| ParserLemmas.ErrMsgReply | erc-state.js:280 | `#GetErrMsg` sets the error message to field 1; nothing else changes |
| ParserLemmas.CurRobotReply | erc-state.js:282 | `#GetCurRobot` sets the current robot to field 1 read as a number; nothing else changes |
| ParserLemmas.CpuLoadReply | erc-state.js:283 | `#GetCpuLoad` sets the CPU load to field 1 read as a number; nothing else changes |
| ParserLemmas.StatusStored | erc-state.js:577-627 | the status handler sets errCode to field 2, the phase (always one of the five values, so Unknown exactly when two or more of bits 0-2 are set) by its bit pattern and the eight signals from bits 3-10; it clears errMsg and errFunc exactly for code 0000, keeps the current robot and CPU load, and touches nothing outside the status record |
| ParserLemmas.StatusReply | erc-state.js:577-627 | errCode becomes field 2; the phase is always set, Reset, Ready, Running or Paused for the four one-bit-or-none patterns of bits 0-2 and Unknown otherwise; signals follow bits 3-10; errMsg and errFunc are cleared exactly when errCode is 0000 and otherwise kept; nothing else changes |
| ParserLemmas.ErrFuncReply | erc-state.js:629-641 | code 0 clears errFunc; otherwise errFunc is rebuilt from fields 1-5, and a reply too short throws |
| ParserLemmas.RobotNameReply | erc-state.js:306-316 | with a count different from the number of robots the robots are unchanged and one warning is given; otherwise robot i gets name field i+2 |
| ParserLemmas.RobotSerialReply | erc-state.js:318-328 | the same all-or-nothing count check, and robot i gets serial field i+2 |
| ParserLemmas.MotorReply | erc-state.js:643-654 | the same count check, and robot i gets motor fields 2i+2 and 2i+3 |
| ParserLemmas.CountedStored | erc-state.js:306-328 | a count-checked reply updates every robot from its own position when the count matches the list, and otherwise changes nothing and gives exactly one warning |
| ParserLemmas.CountMismatchTexts | erc-state.js:314-326 | the two wordings of the count warning, and the count renders and parses back to itself |
| ParserLemmas.RobotInfoReply | erc-state.js:429-459 | the robot list is replaced by exactly N fresh records numbered 1..N, typed and modelled from fields 2i+2 and 2i+3, with series and joints derived from the model; applying the reply twice changes nothing more |
| ParserLemmas.RobotInfoExample | erc-state.js:429-459 | a two-robot reply yields a Joint G1-252S robot (series G1, joints unknown) and a SCARA C4-A701S (series Unknown, 4 joints) |
| ParserLemmas.NoSeriesForC4A7 | erc-state.js:461-540 | a C4-A7 model not ending in C or D matches no series |
| ParserLemmas.X5RuleOtherStart | erc-state.js:521-536 | no X5 rule matches a model that does not start with X and does not end in C or D |
| ParserLemmas.HofsStored | erc-state.js:357-366 | the Hofs handler changes only the robot named by the last command's first digit: all values when its joint count is unknown, else at most `joints` of them, value m from field m+1; a bad robot number throws and changes nothing |
| ParserLemmas.HofsReply | erc-state.js:357-366 | only the robot named by the first digit of the last command changes; it stores all values when joints is unknown, else the first `joints` of them; a bad robot number throws |
| ParserLemmas.PartWarningReply | erc-state.js:383-393 | only the robot named by the last command's first digit changes, getting the six flags of fields 1-6 |
| ParserLemmas.StoreHealthOnlyEntry | erc-state.js:419-426 | storing one part's health adds or overwrites that (joint, part) entry and no other |
| ParserLemmas.HealthRBReply | erc-state.js:395-427 | at the level of the whole reply: -1 changes only the last response; no digit in the last command, a missing field 1 or a robot number naming no robot throws with no other change; otherwise the robot, part and joint named by the last command's digits select one (joint, part) entry, part 1 under `common`, and only that entry of that robot changes |
| ParserLemmas.HealthRBStored | erc-state.js:395-427 | field 1 of -1 changes nothing; no digit in the last command, a missing field 1, or a robot number naming no robot throws and changes nothing; otherwise only the robot list changes and nothing is thrown |
| ParserLemmas.HealthRBEntry | erc-state.js:407-426 | robot, part and joint come from the last command's digits, part 1 under `common` and other parts under `joint<j>`; only that entry of that robot changes |
| ParserLemmas.HealthContReply | erc-state.js:368-381 | -1 removes the battery record; otherwise the record is replaced; a missing field throws after leaving an empty record, and in every case nothing else in the state changes |
| Channel.CommandContract | erc-state.js:166-229 | without a connection nothing is written and nothing changes; with one, the framed command is written, the wait follows the previous reply, lastCommand is the command, and a reply is stored without line breaks |
| Channel.ExecWritesInOrder | erc-state.js:233-241 | `exec` writes the queue's frames in order, all of them when nothing failed, and nothing at all without a connection |
| Channel.ExecStopsAtFirstError | erc-state.js:233-241 | once a command fails, later commands are never sent and change nothing |
| Channel.UpdateEach | erc-state.js:310-312 | the loop gives robot i the reply's values for position i and keeps the list's length |
| Channel.EpsonRC.constructor | erc-state.js:60-124 | a new object holds the initial session, the terminator named in its configuration, and empty logs |
| Channel.EpsonRC.OnConnected | erc-state.js:131-136 | connecting sets connected and records the peer's address |
| Channel.EpsonRC.StoreEach | erc-state.js:306-328 | updates the robots in place exactly as `ParseCounted` specifies, or appends the warning |
| Channel.EpsonRC.StoreInventory | erc-state.js:429-459 | replaces the robot list with `Inventory` of the reply |
| Channel.EpsonRC.StoreHofs | erc-state.js:357-366 | performs `ParseHofs` in place |
| Channel.EpsonRC.StorePartWarning | erc-state.js:383-393 | performs `ParsePartWarning` in place |
| Channel.EpsonRC.StoreHealthRB | erc-state.js:395-427 | performs `ParseHealthRB` in place, creating the joint map when missing |
| Channel.EpsonRC.StoreHealthCont | erc-state.js:368-381 | performs `ParseHealthCont` in place, including the empty record left by a throw |
| Channel.EpsonRC.StoreStatus | erc-state.js:577-627 | performs `ParseStatus` in place |
| Channel.EpsonRC.StoreErrFunc | erc-state.js:629-641 | performs `ParseErrFunc` in place |
| Channel.EpsonRC.Dispatch | erc-state.js:265-300 | each handler leaves the session, the warnings and the error exactly as `Handle` specifies |
| Channel.EpsonRC.DispatchRobots | erc-state.js:283-295 | the robot-list handlers update the session in place exactly as `HandleRobots` specifies |
| Channel.EpsonRC.DispatchSession | erc-state.js:266-286 | the one-field handlers update the session in place exactly as `HandleField` specifies |
| Channel.EpsonRC.ParseResponse | erc-state.js:245-304 | leaves the session, the warning log and the thrown error exactly as `Parse` specifies |
| Channel.EpsonRC.Command | erc-state.js:166-231 | writes, waits and updates the session exactly as `CommandSpec` specifies |
| Channel.EpsonRC.Exec | erc-state.js:233-241 | runs the queue exactly as `ExecSpec` specifies, stopping at the first error |
| Channel.EpsonRC.ExecHead | erc-state.js:235-239 | one round of `exec`: a failing command ends the run as `ExecSpec` says; otherwise the rest of the run is the run of the remaining commands |
| Channel.ExecFirst | erc-state.js:233-241 | a run is its first command followed, unless that command failed, by the run of the rest |
| Channel.EpsonRC.Login | erc-state.js:148-155 | sends `$Login,<password>` only when connected and not logged in, otherwise does nothing |
| Channel.EpsonRC.Logout | erc-state.js:156-163 | sends `$Logout` only when connected and logged in, otherwise does nothing |
| Queues.BuildOnceSchedule | status-monitor.js:218-241 | builds the optional once-queue and the periodic queue given by `OnceSchedule` |
| Queues.OnceScheduleShape | status-monitor.js:218-241 | the once-queue is empty exactly for old firmware; otherwise it is queueOnceNewer, then with robots the name and serial requests and `$GetHofs,1..n` in order; `$GetMotor,0` is polled exactly for new firmware with robots |
| Queues.RobotHealth | status-monitor.js:252-272 | the switch on robot type gives that type's `$GetHealthRB` requests, or a notice for Joint, Cartesian and unknown types |
| Queues.BuildDaily | status-monitor.js:242-276 | builds the daily queue and notices given by `DailySchedule` |
| Queues.PartWarningItemsAppend | status-monitor.js:247-248 | picking the part-warning requests distributes over concatenation |
| Queues.DailyUpToPartWarnings | status-monitor.js:247-248 | the first k robots contribute exactly `$GetPartWarning,1..k` |
| Queues.DailyPartWarnings | status-monitor.js:242-276 | for new firmware, the daily queue holds exactly one `$GetPartWarning,i` per robot, in order, whatever the maintenance flag |
| Queues.DailyWithoutMaintenance | status-monitor.js:242-276 | old firmware gets an empty daily queue; with maintenance data off there is no `$GetHealth…` request and no notice |
| Queues.PartList3 | status-monitor.js:67-79 | the 3-joint list has 11 distinct entries, starts with the backup battery, and names only joints 1-3 |
| Queues.PartList4 | status-monitor.js:47-65 | the 4-joint list has 17 distinct entries, starts with the backup battery, and names only joints 1-4 |
| Queues.PartList6 | status-monitor.js:81-107 | the 6-joint list has 25 distinct entries, starts with the backup battery, and names only joints 1-6 |
| Queues.PartListsWellFormed | status-monitor.js:47-107 | the three lists have 11, 17 and 25 distinct entries, start with the backup battery, and name only joints 1-3, 1-4 and 1-6 |
| Queues.RobotDailyWithMaintenance | status-monitor.js:247-273 | a robot adds its part-warning request, then 11, 17, 25 or no health requests by type and joints; exactly the types without a part list give a notice |
| Queues.BuildErrorQueue | status-monitor.js:289-295 | builds the error queue given by `ErrorQueue` |
| Queues.ErrorQueueShape | status-monitor.js:289-295 | the error queue is empty exactly for code 0000; otherwise it asks for the code's message in the locale's number, and for new firmware also for the error function |
| IndexRecovery.DigitsAppend | erc-state.js:407 | the digits of a concatenation are the digits of its parts |
| IndexRecovery.RobotNumberRecovered | status-monitor.js:237-248 | for robots 1..9 the handlers read back the robot number the monitor sent |
| IndexRecovery.TwoDigitRobotReadsAsTens | status-monitor.js:237-248 | robot numbers 10..99 are read as their tens digit |
| IndexRecovery.HealthIndexRecovered | status-monitor.js:256-263 | the `$GetHealthRB` digits recover the robot, part and joint; the battery goes under `common`, other parts under `joint<j>` |
| IndexRecovery.DailyHealthRecovered | status-monitor.js:256-263 | every health request of a part list is read back as its own robot, part and joint |
| Monitor.ActiveTransitions | status-monitor.js:144-157 | `active` is a no-op when connected, or when a socket is connecting and no countdown runs; otherwise it cancels the countdown and connects unless a socket is connecting |
| Monitor.EndTransitions | status-monitor.js:368-378 | `end` on a half-closed socket only ends it, otherwise it starts a reconnection; both clear the timers, isHalfClosed and connected |
| Monitor.CloseTransitions | status-monitor.js:356-366 | `close` clears connected, loggedIn and isHalfClosed, destroys the socket, and reconnects exactly when there was an error |
| Monitor.IdleStopsWithoutReconnect | status-monitor.js:159-168 | stopping a connected node logs out and half-closes, so the following `end` does not reconnect |
| Monitor.IdleWhileDisconnected | status-monitor.js:170-182 | `idle` while disconnected destroys a live socket, cancels the countdown and shows the node disconnected |
| Monitor.NodeCloseDoesNotReconnect | status-monitor.js:398-407 | after the node is closed, the socket's `end` does not start a reconnection |
| Monitor.TimeoutReconnects | status-monitor.js:409-419 | a socket timeout clears the timers and starts the countdown |
| Monitor.CountdownTicks | status-monitor.js:380-396 | from a countdown at c, c ticks show c down to 1 and the next one clears the countdown and connects |
| Monitor.ReconnectCountdown | status-monitor.js:380-396 | after a reconnection starts, 60 ticks show 60 down to 1 and the 61st connects |
| Monitor.PhaseShownOnChangeOnly | status-monitor.js:283-288 | over any run of polls no status update repeats the phase already on display, and after the run the display shows the last poll's phase; there are at most as many updates as polls |
| Monitor.DailyDueStrict | status-monitor.js:319-322 | the daily queue reruns only when strictly more than 86 400 000 ms have passed, and stays due after that |
| Monitor.StatusMonitor.constructor | status-monitor.js:121-142 | a new node is disconnected, with no socket, countdown or timers |
| Monitor.StatusMonitor.Active | status-monitor.js:144-157 | performs `OnActive` |
| Monitor.StatusMonitor.Idle | status-monitor.js:159-183 | performs `OnIdle` |
| Monitor.StatusMonitor.IdleEnded | status-monitor.js:164-168 | performs the end callback of `idle`: half-closed, socket destroyed; prevPhase and the daily timestamp are kept |
| Monitor.StatusMonitor.SocketConnected | status-monitor.js:214-223 | the session becomes connected with the peer address recorded, and nothing else of the session, its warnings or its writes changes; the node shows connected and resets prevPhase and the daily timestamp |
| Monitor.StatusMonitor.SocketError | status-monitor.js:349-354 | clears the timers and shows the node disconnected; prevPhase and the daily timestamp are kept |
| Monitor.StatusMonitor.Close | status-monitor.js:356-366 | performs `OnClose` on the node and on the session's flags, leaving the rest of the session alone; prevPhase and the daily timestamp are kept |
| Monitor.StatusMonitor.End | status-monitor.js:368-378 | performs `OnEnd`; prevPhase and the daily timestamp are kept |
| Monitor.StatusMonitor.ReconnectEvent | status-monitor.js:409-413 | half-closes, ends the socket and starts the countdown at 60 |
| Monitor.StatusMonitor.Timeout | status-monitor.js:415-419 | performs `OnTimeout`; prevPhase and the daily timestamp are kept |
| Monitor.StatusMonitor.NodeClose | status-monitor.js:398-407 | performs `OnNodeClose`; prevPhase and the daily timestamp are kept |
| Monitor.StatusMonitor.CycleFailed | status-monitor.js:301-305 | the first poll cycle's failure half-closes and ends the socket; prevPhase and the daily timestamp are kept |
| Monitor.StatusMonitor.CountdownTick | status-monitor.js:383-395 | performs `Tick`; prevPhase and the daily timestamp are kept |
| Monitor.StatusMonitor.AfterPeriodic | status-monitor.js:281-296 | shows the phase exactly when it changed, remembers it, and returns the error queue of the session's code, locale and firmware |
| Monitor.StatusMonitor.DailyCheck | status-monitor.js:319 | says whether the daily queue is due |
| Monitor.StatusMonitor.DailyDone | status-monitor.js:277-280 | records when the daily queue finished, which makes it not due |

## Left out

- Socket I/O: socket creation, writes, `setTimeout` and `setNoDelay`, and
  listener wiring are not modelled. Each command's reply, or a socket error,
  is a parameter.
- The 10 ms wait: only whether it happens is modelled (`Step.delayed`), not
  the timer.
- Text decoding: Windows-1252, Shift_JIS, GB18030 and Big5 come from a
  foreign library. Replies are taken as already-decoded strings; only the
  locale's encoding name is kept.
- `Date.parse`: installation and error dates keep the ISO text that the
  date-time rewrite produces, not a parsed time.
- `Number()`: only decimal integers with an optional sign are numbers.
  Fractions, exponents, hexadecimal and `Infinity` read as NaN.
- Integer width: integers are unbounded. The precision loss above 2^53 in
  `Number()` and `parseInt` is not modelled; the fields involved are far
  below that.
- Object prototype keys: a reply code such as `constructor` would find an
  inherited property of the message table. The model's table holds only the
  listed codes.
- Channel.EpsonRC.constructor: takes the locale record already looked up;
  the TypeError for an unknown locale name is not modelled.
- Node-RED glue: node creation and registration, credentials and
  localisation are not modelled. So are `node.log`, `node.warn`,
  `node.error` and the message `node.send` outputs. Status texts are
  recorded as `Show` actions.
- The `input` message that emits `active` or `idle`, and the start-of-operation
  setting, are not modelled; both only emit those events.
- The poll cycle as a whole: no method chains login, the queue executions
  and the timer. Its pieces are modelled separately: `Exec`, the queue
  builders, `AfterPeriodic`, `DailyCheck` and `DailyDone`.
- The periodic timer callback has no error handler: a failing command there
  ends the schedule silently. This is not modelled.
- Concurrency: the race between a running poll and `idle` or teardown is not
  modelled, only the flag changes of each event.
- Monitor.StatusMonitor.ReconnectEvent: `reconnect()` starts a new interval
  without clearing a running one. The model keeps a single countdown, so
  two overlapping countdowns are not represented.
- Polling timers: `jobSchedule` and the timeouts it arms are not modelled, so no
  modelled event sets `Flags.timers`; the transitions only record that an
  event clears them.
- The node's `'close'` handler is registered inside `addListener()`, so it is
  absent before the first `active` and runs once per connection attempt made.
  The model offers `NodeClose` at any time and runs it once.
- Monitor.StatusMonitor.Idle: the logout it starts is not awaited; it is
  recorded as a `SendLogout` action, not run through `Command`.
