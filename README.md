# PI hexapod Tango servers: polled cache and device states

This project models four Python Tango device servers for a PI hexapod. Each
one is a successive version of the same idea: a device owns the controller
link. After a successful refresh it re-queries the controller at most once
per 0.1 s from its `always_executed_hook`, and caches the answers in dictionaries. It serves
per-axis reads from those dictionaries and derives a Tango device state
(ON, MOVING, WARN, FAULT, OFF) from what it cached.

One Dafny module per source file:

- `MotorServer` (PIGCSMotor.py). The current server, with two device classes:
  - `PIGCSController` caches six answers while ON;
  - `PIGCSAxis` reads its axis through the controller, may invert the sign
    of its position, and shows WARN while unreferenced.
- `HexapodServer` (PIHexapod.py). The monolithic original: one device, six
  axes, three attributes per axis made at start-up.
- `ControllerServer` and `AxisServer` (PIGCSController.py, PIGCSAxis.py). The
  earlier two-server version.

Shared modules:

- `Python`: Option, Result and the exceptions.
- `Tango`: device states, and how booleans travel in a double array.
- `Text`: `upper()`, `split()`, and number rendering and parsing.
- `Gcs`: the controller link and the calls sent over it.
- `Polling`: the throttle and the three-query refresh of PIHexapod.py and
  PIGCSController.py.

How the model is built:

- **Controller link.** A `Gcs.Link` value holds the controller's answers during
  one access. Each answer is a `Result`; `qVMO`, `MOV` and `SPI` are
  functions of their arguments. Each device keeps a `log` of the calls it
  sent, so statements such as "no query while throttled" and "MOV only after
  qVMO accepted" are visible in the contracts.
- **Clock.** Each hook takes two readings: `now` for the throttle test and
  `later` for the stamp taken after the queries.
- **Spec functions.** Each device class is a Dafny `class` whose methods update
  its fields step by step, as the source does. Each method is proved equal
  to a function of the old state (`Initialized`, `Hooked`, `MotionHook`,
  `SetPositionStep`, …), and the lemmas state what the source promises
  about those functions.
- **Proxy calls.** A call through a Tango `DeviceProxy` runs the remote
  device's hook and then its command (`Remote`).

Behaviour of the code worth knowing:

- The throttle is strict. It refreshes when `now - last > timeout`, not when
  `>=`.
- A refresh is not atomic. A query that raises leaves the caches assigned
  before it already replaced, and keeps `_last_query`.
- A failed refresh never sets FAULT. The state is left as it was.
- The axis device of PIGCSMotor.py shows WARN whenever it is unreferenced,
  even while moving: the WARN test comes after the MOVING one and overrides it.
- A target the controller refuses (`qVMO` false) raises ValueError. It does not
  come back as a nonzero result code.
- An axis device in FAULT keeps forwarding commands; nothing refuses them.
  An axis the controller did not name still never gets a report
  (`MotorServer.UnknownAxisNeverReported`).
- The PIGCSMotor.py hook never changes the controller's state, and its
  `find_references` only sends FRF.

## Model

| member | source | states |
|---|---|---|
| Polling.MotionState | PIHexapod.py:125-128 | MOVING iff some cached moving flag is set, ON iff none is |
| Polling.ReferenceState | PIHexapod.py:136-139 | ON iff every referenced flag is set, FAULT iff one is clear |
| Polling.NoAxesIsReferenced | PIHexapod.py:136-137 | an empty referenced map gives ON (`all` of nothing) |
| Polling.MotionHook | PIHexapod.py:119-129 | within the timeout nothing is sent and nothing changes; the calls are always a prefix of qPOS, qLIM, IsMoving; it passes iff it was throttled or all three queries answered, and only then are the state set from the moving flags and the stamp set to `later` |
| Polling.MotionRefresh | PIGCSController.py:58-66 | each of positions, limits and moving flags holds the new answer exactly when its query and every earlier one answered; the state and the stamp change, and the result is Pass, exactly when all three answered; a query is sent iff every earlier one answered |
| Polling.MotionHookThrottled | PIHexapod.py:121 | within the timeout the hook sends nothing and changes nothing |
| Polling.MotionHookCompletes | PIHexapod.py:121-129 | a refresh where every query answers replaces positions, limits and moving flags, stamps the later clock reading, sends qPOS, qLIM, IsMoving in order, and sets MOVING iff some queried axis moves (ON otherwise), whatever the state was |
| Polling.MotionHookFailsPartway | PIGCSController.py:58-66 | a refresh that raises keeps the state and `_last_query` (so the next access retries), but the caches assigned before the failing query already hold the new answers |
| Polling.ReferenceSearch | PIHexapod.py:132-139 | FRF then qFRF; ON iff every axis is referenced, FAULT iff one is not; a raise sends nothing further |
| Gcs.IsMovingReply | PIHexapod.py:124 | the moving flags of exactly the axes asked for, each equal to the controller's flag; fails iff the controller lacks one of them |
| Gcs.MoveAndCheck | PIHexapod.py:98-99 | MOV then qERR; qERR is sent only when MOV did not raise; the result is the qERR answer when MOV passed and MOV's exception when it raised |
| Python.Subscript | PIGCSMotor.py:166-169 | `d[key]` on a cache: a value iff the cache is set and holds the key, and then the cached value |
| Text.Upper | PIHexapod.py:88 | `upper()` keeps the length and uppercases each character |
| Text.Split | PIGCSMotor.py:130 | `split()` gives at least one piece, none holds the separator, and joining them gives the string back |
| Text.SplitWithoutSeparator | PIGCSMotor.py:130 | a string without the separator splits into itself alone |
| Text.SplitAfterPiece | PIGCSMotor.py:130 | a leading piece without the separator comes off whole |
| Text.SplitJoin | PIGCSMotor.py:130 | splitting undoes joining when no piece holds the separator |
| Text.Digits | PIGCSMotor.py:308 | the decimal digits of a number: non-empty and all digits |
| Text.DigitsValueOfDigits | PIGCSMotor.py:308 | reading back the digits of `n` gives `n` |
| Text.ParseFloat | PIGCSMotor.py:131 | a number starts with a sign or a digit; a one-character string is a number iff it is a digit, and then its value |
| Text.Render | PIGCSMotor.py:307 | `str()` of a whole number: a minus sign iff negative, then decimal digits that read back as the magnitude, then `.0` |
| Text.ParseRender | PIGCSMotor.py:131 | `float(str(x))` gives `x` back for every rendered number |
| Text.ParseUnsignedRendered | PIGCSMotor.py:131 | the digits of `n` followed by `.0` parse to `n` |
| Text.RenderHasNoEquals | PIGCSMotor.py:308 | a rendered number holds no `=` |
| Text.FormatAssignment | PIGCSMotor.py:308 | `f"{axis}={value}"` starts with the axis followed by `=` |
| HexapodServer.SuffixKey | PIHexapod.py:105 | `name.upper()[-1]`, uppercased: IndexError for an empty name, else the last character uppercased |
| HexapodServer.DynamicAttributeTable | PIHexapod.py:60-63 | the attributes made are those of x, y, z in mm then u, v, w in deg, 18 in all |
| HexapodServer.AttributesForThree | PIHexapod.py:60-61 | one loop over three letters makes their attributes in order |
| HexapodServer.AxisAttributeKeys | PIHexapod.py:88 | the three attributes of axis `ax` all read their cache under `ax.upper()` |
| HexapodServer.DynamicAttributeKeys | PIHexapod.py:105 | every attribute made reads its cache under one of X, Y, Z, U, V, W |
| HexapodServer.AttributesForShape | PIHexapod.py:65-83 | each position attribute is named by one letter of its loop and carries its unit; the limit and moving attributes carry none |
| HexapodServer.DynamicAttributeUnits | PIHexapod.py:60-63 | position attributes carry mm iff their letter is in xyz and deg iff it is in uvw |
| HexapodServer.MovingQueryCoversAttributes | PIHexapod.py:124 | the moving query answers for exactly X, Y, Z, U, V, W, so every attribute's key is in the moving cache after a refresh |
| HexapodServer.PIHexapod.constructor | PIHexapod.py:21-31 | a device before `init_device`: the host and port, UNKNOWN, empty caches |
| HexapodServer.PIHexapod.InitDevice | PIHexapod.py:33-53 | ON with the caches None, `_last_query` 0 and the timeout 0.1 iff connect and identify succeed; otherwise OFF and exit status 255 |
| HexapodServer.PIHexapod.CreateAxisAttributes | PIHexapod.py:65-83 | appends `ax`, `lim_ax`, `mov_ax`, the unit on the position only |
| HexapodServer.PIHexapod.InitializeDynamicAttributes | PIHexapod.py:55-63 | appends exactly the attribute table above; nothing else changes |
| HexapodServer.PIHexapod.ReadPos | PIHexapod.py:85-91 | the cached position under the name uppercased, or an error when it is missing |
| HexapodServer.PIHexapod.ReadLimit | PIHexapod.py:103-109 | the cached limit switch under the last character uppercased |
| HexapodServer.PIHexapod.ReadIsMoving | PIHexapod.py:111-117 | the cached moving flag under the last character uppercased |
| HexapodServer.PIHexapod.SetPos | PIHexapod.py:93-101 | MOV of the uppercased axis then qERR; MOVING only when the code is 0, otherwise the state is kept; the caches do not change |
| HexapodServer.PIHexapod.AlwaysExecutedHook | PIHexapod.py:119-129 | the new caches, calls and outcome are those of `MotionHook` over X, Y, Z, U, V, W |
| HexapodServer.PIHexapod.Refresh | PIHexapod.py:122-129 | the hook past its gate equals `MotionRefresh` |
| HexapodServer.PIHexapod.StoreMoving | PIHexapod.py:124-129 | caches the flags, sets `MotionState` of them and stamps the clock |
| HexapodServer.PIHexapod.FindReferences | PIHexapod.py:131-139 | the state, calls and outcome are those of `ReferenceSearch`; the caches do not change |
| HexapodServer.PIHexapod.Halt | PIHexapod.py:141-144 | sends HLT and changes nothing else |
| ControllerServer.Report | PIGCSController.py:93-95 | the position, limit and moving flag of the axis, present iff all three caches hold it; a None position cache raises TypeError |
| ControllerServer.Encode | PIGCSController.py:90-95 | the 3-tuple as a double array whose entries read back as position, limit, moving |
| ControllerServer.ParseCharIndexed | PIGCSController.py:77-79 | axis = character 0, target = `float` of character 1: succeeds iff there are two characters and the second is a digit; IndexError or ValueError otherwise |
| ControllerServer.CharIndexedParseMissesAxisCommands | PIGCSController.py:78-79 | the `"<axis>=<value>"` an axis device sends is never parsed into that move; for a one-letter axis it raises ValueError |
| ControllerServer.Hooked | PIGCSController.py:56-66 | the hook on the controller's state: nothing happens within the timeout, and the axis names and timeout never change |
| ControllerServer.SetPositionStep | PIGCSController.py:77-82 | a parse that raises sends nothing; otherwise MOV and qERR, whose answer is returned; the caches do not change |
| ControllerServer.Remote | PIGCSController.py:56-58 | a proxied command fails with the hook's exception, or runs on the state the hook left; for a body that only appends to the log, the calls sent before are kept and the hook's queries precede the body's calls |
| ControllerServer.AxisNamesCapturedOnce | PIGCSController.py:101-103 | `get_axis_names` answers with the list `init_device` captured; no command changes it |
| ControllerServer.RemoteAxisMoveNeverSent | PIGCSController.py:78-80 | a move sent through an axis device raises, sends no MOV, and leaves only the hook's effect |
| ControllerServer.PIGCSController.constructor | PIGCSController.py:17-30 | a device before `init_device`: the host and port, UNKNOWN, empty caches, no axis names |
| ControllerServer.PIGCSController.InitDevice | PIGCSController.py:32-54 | ON with the names from `allaxes` iff connect, identify and `allaxes` succeed; otherwise OFF and exit status 255; the caches and throttle are reset iff identify succeeded |
| ControllerServer.PIGCSController.AlwaysExecutedHook | PIGCSController.py:56-66 | the new state is `Hooked` of the old: the three-query refresh over the captured axes |
| ControllerServer.PIGCSController.Refresh | PIGCSController.py:59-66 | the hook past its gate equals `MotionRefresh` over the captured axes |
| ControllerServer.PIGCSController.StoreMoving | PIGCSController.py:61-66 | caches the flags, sets `MotionState` of them and stamps the clock |
| ControllerServer.PIGCSController.SetPosition | PIGCSController.py:77-82 | the new state and answer are `SetPositionStep` of the old state |
| ControllerServer.PIGCSController.QueryAxisState | PIGCSController.py:93-95 | the encoded report of the axis, or the exception its lookup raises |
| ControllerServer.PIGCSController.GetAxisNames | PIGCSController.py:101-103 | the captured names, without a query |
| ControllerServer.PIGCSController.QueryAxisLimits | PIGCSController.py:109-113 | `[lower, upper]` from qTMN then qTMX; a value iff both answers hold the axis; qTMX is sent only when the lower limit was found |
| ControllerServer.PIGCSController.FindReferences | PIGCSController.py:115-123 | the state, calls and outcome are those of `ReferenceSearch`; the caches do not change |
| ControllerServer.PIGCSController.Halt | PIGCSController.py:125-128 | sends HLT and changes nothing else |
| AxisServer.DecodeEncode | PIGCSAxis.py:57-59 | the axis reads back exactly the report the controller encoded |
| AxisServer.PIGCSAxis.constructor | PIGCSAxis.py:17-40 | a device before `init_device`: UNKNOWN, zero position, limit clear |
| AxisServer.PIGCSAxis.InitDevice | PIGCSAxis.py:45-52 | ON with position and limit zeroed iff the axis is among the controller's names, FAULT otherwise; a failing proxy call changes nothing here |
| AxisServer.PIGCSAxis.AlwaysExecutedHook | PIGCSAxis.py:54-62 | stores the reported position and limit; MOVING iff the moving flag is set, else ON, with no WARN; a failing call changes nothing |
| AxisServer.PIGCSAxis.ReadPosition | PIGCSAxis.py:64-65 | the stored position, not inverted |
| AxisServer.PIGCSAxis.ReadLimitSwitch | PIGCSAxis.py:73-74 | the stored limit switch |
| AxisServer.PIGCSAxis.WritePosition | PIGCSAxis.py:67-71 | sends `"<axis>=<value>"` to `set_position`; MOVING iff the answer is 0, otherwise the state is kept |
| AxisServer.PIGCSAxis.StopAxis | PIGCSAxis.py:76-79 | forwards to the controller's `halt`; nothing here changes |
| MotorServer.Initialized | PIGCSMotor.py:67-91 | ON iff connect, identify and `allaxes` all succeed, FAULT otherwise; the six caches, `_last_query` 0 and the timeout 0.1 are set iff identify succeeded; the calls sent; keeps the moving-flags invariant |
| MotorServer.MotionRefreshed | PIGCSMotor.py:97-99 | positions, limits and moving flags in order: each of the three caches holds the new answer exactly when its query and every earlier one answered and is kept otherwise; it passes iff all three answered; a query is sent iff every earlier one answered; the state, timeout, names and stamp are kept |
| MotorServer.StatusRefreshed | PIGCSMotor.py:100-103 | referenced, pivot and velocity in order: each cache holds the new answer exactly when its query and every earlier one answered; the stamp is `later` iff all three answered, which is also when it passes; a query is sent iff every earlier one answered; the motion caches and the state are kept |
| MotorServer.Refreshed | PIGCSMotor.py:97-103 | the six queries in order, stopping at the first that raises: each of the six caches holds the new answer exactly when its query and every earlier one answered, the stamp is `later` and the result Pass exactly when all six answered, and the log gains qPOS and then each later query only when every earlier one answered; the state never changes |
| MotorServer.Hooked | PIGCSMotor.py:93-103 | no query unless ON and `now - last > timeout` (strict); the state, timeout and names never change; the moving cache stays keyed by the named axes |
| MotorServer.HookCompletes | PIGCSMotor.py:97-103 | a refresh where every query answers replaces all six caches, stamps the later reading, and sends the six queries in order |
| MotorServer.HookFailsPartway | PIGCSMotor.py:97-103 | a refresh that raises keeps `_last_query` and the velocity, the next access retries, and positions, limits, moving flags, referenced flags and pivot point hold the answers that came before the failure |
| MotorServer.FirstAccessRefreshes | PIGCSMotor.py:85-96 | after a successful init, the first access past 0.1 s on the clock refreshes, starting with qPOS |
| MotorServer.FailedInitNeverQueries | PIGCSMotor.py:89-95 | a failed init leaves FAULT, and the hook then never queries |
| MotorServer.Report | PIGCSMotor.py:165-171 | position, limit, moving, referenced of the axis and the velocity, present iff all are cached; a None position cache raises TypeError |
| MotorServer.Encode | PIGCSMotor.py:149-172 | the 5-tuple as a double array whose entries read back in the tuple's order |
| MotorServer.DecodeEncode | PIGCSMotor.py:289-295 | the axis reads index 0 as position, 4 as velocity, 1 as limit, 3 as referenced, 2 as moving, which is the order they were sent in |
| MotorServer.ParseMoveCommand | PIGCSMotor.py:130-131 | succeeds iff the command splits on `=` into exactly two pieces and the second is a number; ValueError otherwise |
| MotorServer.CommandWithoutSeparator | PIGCSMotor.py:130 | a command without `=` raises ValueError |
| MotorServer.MoveCommandRoundTrip | PIGCSMotor.py:130-131 | the command `"<axis>=<value>"` is parsed back into that very move |
| MotorServer.SetPositionStep | PIGCSMotor.py:129-137 | only the log changes; a bad command sends nothing; an unreachable target sends only qVMO and raises ValueError; a MOV is sent iff the command parses and qVMO accepts |
| MotorServer.PivotArgs | PIGCSMotor.py:206 | `values[0:3]`: the first three values, or all of them when fewer |
| MotorServer.Remote | PIGCSMotor.py:288-289 | a proxied command fails with the hook's exception, or runs on the state the hook left; for a body that only appends to the log, the calls sent before are kept and the hook's queries precede the body's calls |
| MotorServer.UnknownAxisNeverReported | PIGCSMotor.py:269-279 | an axis the controller did not name never gets a report through the proxy, and the invariant holds afterwards |
| MotorServer.AxisNamesOf | PIGCSMotor.py:178-180 | the names read at init, AttributeError while they were never read |
| MotorServer.PIGCSController.constructor | PIGCSMotor.py:24-37 | a device before `init_device`: UNKNOWN, empty caches, no axis names; the invariant holds |
| MotorServer.PIGCSController.InitDevice | PIGCSMotor.py:67-91 | the new state is `Initialized` of the old, and the invariant is kept |
| MotorServer.PIGCSController.ResetCaches | PIGCSMotor.py:79-86 | the six caches None, `_last_query` 0, timeout 0.1; nothing else changes |
| MotorServer.PIGCSController.AlwaysExecutedHook | PIGCSMotor.py:93-103 | the new state is `Hooked` of the old, and the invariant is kept |
| MotorServer.PIGCSController.Refresh | PIGCSMotor.py:96-103 | the hook past its gate equals `Refreshed` |
| MotorServer.PIGCSController.RefreshMotion | PIGCSMotor.py:97-99 | equals `MotionRefreshed` |
| MotorServer.PIGCSController.RefreshStatus | PIGCSMotor.py:100-103 | equals `StatusRefreshed` |
| MotorServer.PIGCSController.QueryAxisState | PIGCSMotor.py:149-172 | the encoded report of the axis, or the exception its lookup raises |
| MotorServer.PIGCSController.SetPosition | PIGCSMotor.py:129-137 | the new state and answer are `SetPositionStep` of the old; the invariant is kept |
| MotorServer.PIGCSController.ReadPivotX | PIGCSMotor.py:108-109 | the cached pivot coordinate R |
| MotorServer.PIGCSController.ReadPivotY | PIGCSMotor.py:111-112 | the cached pivot coordinate S |
| MotorServer.PIGCSController.ReadPivotZ | PIGCSMotor.py:114-115 | the cached pivot coordinate T |
| MotorServer.PIGCSController.SetPivotPoint | PIGCSMotor.py:200-206 | sends SPI on X, Y, Z with `values[0:3]`; nothing else changes |
| MotorServer.PIGCSController.FindReferences | PIGCSMotor.py:208-211 | sends FRF; the state and caches do not change |
| MotorServer.PIGCSController.Halt | PIGCSMotor.py:213-216 | sends HLT; nothing else changes |
| MotorServer.PIGCSController.Stop | PIGCSMotor.py:218-221 | sends STP; nothing else changes |
| MotorServer.Signed | PIGCSMotor.py:303-304 | `-p` when inverted, `p` otherwise |
| MotorServer.SignedTwice | PIGCSMotor.py:302-308 | applying the sign twice gives the value back |
| MotorServer.WriteReadRoundTrip | PIGCSMotor.py:302-308 | writing `v` sends a move to `sign * v`, and once the controller reports that position the axis reads `v` |
| MotorServer.AxisState | PIGCSMotor.py:295-300 | WARN iff unreferenced, MOVING iff moving and referenced, ON iff neither |
| MotorServer.PIGCSAxis.constructor | PIGCSMotor.py:224-263 | a device before `init_device`: UNKNOWN, every field zero or clear |
| MotorServer.PIGCSAxis.InitDevice | PIGCSMotor.py:265-279 | ON with position, velocity and limit zeroed and inverted and referenced clear iff the axis is among the controller's names, FAULT otherwise; a failing call changes nothing |
| MotorServer.PIGCSAxis.AlwaysExecutedHook | PIGCSMotor.py:288-300 | stores position, velocity, limit and referenced from the report and sets `AxisState`; a failing call changes nothing; inverted is kept; an axis the controller did not name always fails here and keeps its state, so an axis that `init_device` left FAULT never becomes ON |
| MotorServer.PIGCSAxis.ReadPosition | PIGCSMotor.py:302-304 | the stored position with the sign applied |
| MotorServer.PIGCSAxis.WritePosition | PIGCSMotor.py:306-311 | sends `"<axis>=<sign * value>"`; MOVING iff the answer is 0, otherwise the state is kept; nothing else here changes |
| MotorServer.PIGCSAxis.WriteInverted | PIGCSMotor.py:322-323 | only `inverted` changes |
| MotorServer.PIGCSAxis.HaltAxis | PIGCSMotor.py:331-334 | forwards to the controller's `halt`; nothing here changes |
| MotorServer.PIGCSAxis.StopAxis | PIGCSMotor.py:336-339 | forwards to the controller's `stop`; nothing here changes |

## Left out

- The controller link (`pipython.GCS2Device`) is network I/O. Its answers are an input value (`Gcs.Link`), and any exchange may fail.
- `time.time()` becomes two real clock readings passed in: one for the throttle test, one for the stamp.
- Floating point: positions, targets, velocities and pivot values are whole numbers of the controller's unit. `str()` and `float()` are modelled on whole numbers only (`"5.0"`, `"-12.0"`, and a sign, ASCII digits and a fraction of zeros).
- Text.Render always writes `<digits>.0`. Python's `str()` switches to exponent form from 1e16 on (`str(1e16)` is `'1e+16'`), and the model does not.
- Text.ParseFloat accepts ASCII digits only. Python's `float()` also reads other Unicode decimal digits (`float('٥')` is 5.0); the model treats them as unparsable.
- `str.upper()` is modelled for ASCII letters only.
- Tango mechanics are not modelled: decorators, `device_property`, `tango.Attr`, `UserDefaultAttrProp`, `add_attribute` and the `getattr` setter loop. Only the attribute names, kinds and units are kept.
- The Tango framework's own sequencing is not modelled. The model does not run the axis device's own hook before its commands; a caller composes that.
- Memorized persistence of `inverted` is not modelled.
- MotorServer.PIGCSAxis.InitDevice does not run `update_attribute_config` (PIGCSMotor.py:276, 281-286). That method makes two proxied calls after the state was set ON: `query_axis_limits` (qTMN, qTMX) and `query_axis_unit` (qPUN). Each runs the controller's hook first, so each can refresh the controller's caches, and each can raise (a link error, a hook failure, or KeyError for a missing axis). The model drops these calls, their log entries and their effect on the controller, and its InitDevice never raises after setting ON. The Tango display bounds and unit they set are left out as well.
- Log `print`s and the `__main__` blocks are left out. `sys.exit(255)` becomes the exit code `InitDevice` returns.
- Concurrency is left out: Tango's per-device serialisation, and how long FRF, HLT and STP block.
- An attribute that `init_device` never assigned is None, so reading it raises TypeError instead of AttributeError. In `MotorServer` the axis-name list is the exception: it is modelled as missing (AttributeError). Elsewhere the values a constructor sets before `init_device` are placeholders: `ControllerServer`'s axis-name list starts empty, and `_last_query` and `_query_timeout` start at 0.0 in all three controller classes. No reachable run reads them, because a failed `init_device` exits with status 255 in PIHexapod.py and PIGCSController.py, and leaves FAULT in PIGCSMotor.py, which the hook does not pass.
- DevFailed wrapping of exceptions that cross a proxy is not modelled: the Python exception itself comes back.
- Velocity access is left out. `read_velocity` returns a field as it is: the controller's cached `_velocity` (PIGCSMotor.py:117-118) or the axis's `_velocity` (PIGCSMotor.py:325-326). `write_velocity` and `set_velocity` only forward VLS to the controller.
- `query_axis_unit` (qPUN) of PIGCSMotor.py is left out as a command of its own: it only forwards one query to the controller.
- `query_position` and `query_limit` of PIGCSController.py and PIGCSMotor.py are left out. They are plain lookups that no command of these servers calls.
- `query_axis_limits` of PIGCSMotor.py is left out. It is the same code as PIGCSController.py's, which is modelled.
- `read_limit_switch`, `read_referenced` and `read_inverted` of PIGCSMotor.py are left out. They return a field as it is.
- PIGCSAxis.py:43 calls `super(PIGCSController, self)`, a name that file never imports, so its `init_device` fails before the membership check. The model gives the intended init (PIGCSAxis.py:45-52).
- The controller's `halt()` and `stop()` pass `noraise=True`. The model takes this to suppress every link error, so they always complete; what the link library does with that flag is not part of this model.

## Findings

| source | as written | input that shows it | evidently intended | confidence | as-written member | corrected member |
|---|---|---|---|---|---|---|
| PIGCSController.py:78-79 | the axis is character 0 of the command and the target is `float` of character 1 alone | `"X=5.0"`, in the format the command's own `doc_in` declares (`'<axis_name>=<position>'`, PIGCSController.py:73) and the one PIGCSAxis.py:68 builds for axis X and value 5: `float("=")` raises ValueError, so no move is ever sent. PIGCSAxis.py:32-35 declares `position` READ-only, so a Tango client cannot reach that `write_position`; any client calling `set_position` as documented does | split the command on `=` into the axis and the target, as PIGCSMotor.py:130-131 does | high; not executed | ControllerServer.CharIndexedParseMissesAxisCommands | MotorServer.MoveCommandRoundTrip |

`ControllerServer` keeps the parse as written (`ParseCharIndexed`), because
that is what PIGCSController.py does. The corrected parse is the later
server's `MotorServer.ParseMoveCommand`, which the motor axis device's
commands go through.
