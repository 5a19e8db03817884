/**
 * PIGCSMotor.py: the current server, in two device classes. The controller
 * device owns the link, caches six answers of the controller while it is ON,
 * and serves per-axis commands; each axis device reads its axis through the
 * controller and may show its position inverted.
 */
module MotorServer {
  import opened Python
  import opened Tango
  import opened Text
  import opened Gcs
  import opened Polling

  /** The controller device's cached answers and the time they were taken. */
  datatype Cache = Cache(
    positions: Option<map<string, int>>,
    limits: Option<map<string, bool>>,
    moving: Option<map<string, bool>>,
    referenced: Option<map<string, bool>>,
    pivotPoint: Option<map<string, int>>,
    velocity: Option<int>,
    lastQuery: real)

  /** The caches as a successful `init_device` leaves them. */
  const InitialCache: Cache := Cache(None, None, None, None, None, None, InitialLastQuery)

  /** The controller device's state; `axisNames` is None until `init_device` reads `allaxes`. */
  datatype ControllerModel = ControllerModel(
    state: DevState,
    cache: Cache,
    queryTimeout: real,
    axisNames: Option<seq<string>>,
    log: seq<Call>)

  /**
   * Only a device that read its axis names is ever ON, and the moving flags
   * cached are those of exactly those axes.
   */
  ghost predicate Consistent(m: ControllerModel) {
    && (m.state == ON ==> m.axisNames.Some?)
    && (m.cache.moving.Some? ==> m.axisNames.Some? && m.cache.moving.value.Keys == set a | a in m.axisNames.value)
  }

  /** A command's new controller state and its result. */
  datatype Step<T> = Step(model: ControllerModel, result: T)

  /**
   * `init_device`: connect, identify, reset the six caches and the throttle,
   * read `allaxes`, and set ON; any exception sets FAULT instead, after the
   * assignments that preceded it.
   */
  function Initialized(m: ControllerModel, host: string, port: int, link: Link): (m': ControllerModel)
    requires Consistent(m)
    ensures m'.state == ON <==> link.connect.Pass? && link.identity.Ok? && link.allAxes.Ok?
    ensures m'.state != ON ==> m'.state == FAULT
    ensures m'.state == ON ==> m'.axisNames == Some(link.allAxes.value)
    ensures m'.state != ON ==> m'.axisNames == m.axisNames
    ensures Consistent(m')
    ensures link.connect.Pass? && link.identity.Ok? ==> m'.cache == InitialCache && m'.queryTimeout == QueryTimeout
    ensures !(link.connect.Pass? && link.identity.Ok?) ==> m'.cache == m.cache && m'.queryTimeout == m.queryTimeout
    ensures m'.log == m.log + [ConnectTCPIP(host, port)] + (if link.connect.Pass? then [qIDN] else [])
                    + (if link.connect.Pass? && link.identity.Ok? then [qSAI] else [])
  {
    var m1 := m.(log := m.log + [ConnectTCPIP(host, port)]);
    if link.connect.Fail? then m1.(state := FAULT)
    else
      var m2 := m1.(log := m1.log + [qIDN]);
      if link.identity.Raise? then m2.(state := FAULT)
      else
        var m3 := m2.(cache := InitialCache, queryTimeout := QueryTimeout, log := m2.log + [qSAI]);
        if link.allAxes.Raise? then m3.(state := FAULT)
        else m3.(axisNames := Some(link.allAxes.value), state := ON)
  }

  /**
   * The first half of the hook's refresh, the three queries every version
   * makes: positions, limits and the moving flags of the named axes. A
   * query that raises stops the refresh with the earlier caches replaced.
   */
  function MotionRefreshed(m: ControllerModel, link: Link): (s: Step<Outcome>)
    requires m.axisNames.Some?
    ensures s.model.state == m.state && s.model.queryTimeout == m.queryTimeout && s.model.axisNames == m.axisNames
    ensures s.model.cache.lastQuery == m.cache.lastQuery
    ensures s.model.cache.moving == m.cache.moving
         || (IsMovingReply(link, m.axisNames.value).Ok? && s.model.cache.moving == Some(IsMovingReply(link, m.axisNames.value).value))
    ensures var axes := m.axisNames.value;
      var p := link.positions.Ok?;
      var l := p && link.limits.Ok?;
      var mv := l && IsMovingReply(link, axes).Ok?;
      && (s.result == Pass <==> mv)
      && s.model.cache == m.cache.(
           positions := if p then Some(link.positions.value) else m.cache.positions,
           limits := if l then Some(link.limits.value) else m.cache.limits,
           moving := if mv then Some(IsMovingReply(link, axes).value) else m.cache.moving)
      && s.model.log == m.log + [qPOS] + (if p then [qLIM] else []) + (if l then [IsMoving(axes)] else [])
  {
    var axes := m.axisNames.value;
    var log := m.log + [qPOS];
    if link.positions.Raise? then Step(m.(log := log), Fail(link.positions.error))
    else
      var c := m.cache.(positions := Some(link.positions.value));
      var log := log + [qLIM];
      if link.limits.Raise? then Step(m.(cache := c, log := log), Fail(link.limits.error))
      else
        var c := c.(limits := Some(link.limits.value));
        var log := log + [IsMoving(axes)];
        var flags := IsMovingReply(link, axes);
        if flags.Raise? then Step(m.(cache := c, log := log), Fail(flags.error))
        else Step(m.(cache := c.(moving := Some(flags.value)), log := log), Pass)
  }

  /**
   * The second half, the three queries this version adds: referenced
   * flags, pivot point and velocity; when all answer, the clock reading
   * `later` is stamped.
   */
  function StatusRefreshed(m: ControllerModel, link: Link, later: real): (s: Step<Outcome>)
    ensures s.model.state == m.state && s.model.queryTimeout == m.queryTimeout && s.model.axisNames == m.axisNames
    ensures s.model.cache.moving == m.cache.moving
    ensures s.model.cache.positions == m.cache.positions && s.model.cache.limits == m.cache.limits
    ensures var rf := link.referenced.Ok?;
      var pv := rf && link.pivot.Ok?;
      var v := pv && link.velocity.Ok?;
      && (s.result == Pass <==> v)
      && s.model.cache == m.cache.(
           referenced := if rf then Some(link.referenced.value) else m.cache.referenced,
           pivotPoint := if pv then Some(link.pivot.value) else m.cache.pivotPoint,
           velocity := if v then Some(link.velocity.value) else m.cache.velocity,
           lastQuery := if v then later else m.cache.lastQuery)
      && s.model.log == m.log + [qFRF] + (if rf then [qSPI] else []) + (if pv then [qVLS] else [])
  {
    var log := m.log + [qFRF];
    if link.referenced.Raise? then Step(m.(log := log), Fail(link.referenced.error))
    else
      var c := m.cache.(referenced := Some(link.referenced.value));
      var log := log + [qSPI];
      if link.pivot.Raise? then Step(m.(cache := c, log := log), Fail(link.pivot.error))
      else
        var c := c.(pivotPoint := Some(link.pivot.value));
        var log := log + [qVLS];
        if link.velocity.Raise? then Step(m.(cache := c, log := log), Fail(link.velocity.error))
        else Step(m.(cache := c.(velocity := Some(link.velocity.value), lastQuery := later), log := log), Pass)
  }

  /**
   * The body of `always_executed_hook` once past its gate: the six queries
   * in order, stopping at the first that raises. Each cache is replaced
   * exactly when its query and every earlier one answered, `later` is
   * stamped only when all six did, and a query is sent only when every
   * earlier one answered.
   */
  function Refreshed(m: ControllerModel, link: Link, later: real): (s: Step<Outcome>)
    requires m.axisNames.Some?
    ensures s.model.state == m.state && s.model.queryTimeout == m.queryTimeout && s.model.axisNames == m.axisNames
    ensures s.model.cache.moving == m.cache.moving
         || (IsMovingReply(link, m.axisNames.value).Ok? && s.model.cache.moving == Some(IsMovingReply(link, m.axisNames.value).value))
    ensures var axes := m.axisNames.value;
      var p := link.positions.Ok?;
      var l := p && link.limits.Ok?;
      var mv := l && IsMovingReply(link, axes).Ok?;
      var rf := mv && link.referenced.Ok?;
      var pv := rf && link.pivot.Ok?;
      var v := pv && link.velocity.Ok?;
      && (s.result == Pass <==> v)
      && s.model.cache == Cache(
           if p then Some(link.positions.value) else m.cache.positions,
           if l then Some(link.limits.value) else m.cache.limits,
           if mv then Some(IsMovingReply(link, axes).value) else m.cache.moving,
           if rf then Some(link.referenced.value) else m.cache.referenced,
           if pv then Some(link.pivot.value) else m.cache.pivotPoint,
           if v then Some(link.velocity.value) else m.cache.velocity,
           if v then later else m.cache.lastQuery)
      && s.model.log == m.log + [qPOS] + (if p then [qLIM] else []) + (if l then [IsMoving(axes)] else [])
                        + (if mv then [qFRF] else []) + (if rf then [qSPI] else []) + (if pv then [qVLS] else [])
  {
    var motion := MotionRefreshed(m, link);
    if motion.result.Fail? then motion else StatusRefreshed(motion.model, link, later)
  }

  /**
   * `always_executed_hook`: refresh only while the device is ON, and only
   * when the last query is older than the timeout. The state never changes
   * here, and the moving flags cached stay those of the named axes.
   */
  function Hooked(m: ControllerModel, now: real, link: Link, later: real): (s: Step<Outcome>)
    requires Consistent(m)
    ensures !(m.state == ON && Due(m.cache.lastQuery, m.queryTimeout, now)) ==> s == Step(m, Pass)
    ensures s.model.state == m.state && s.model.queryTimeout == m.queryTimeout && s.model.axisNames == m.axisNames
    ensures Consistent(s.model)
  {
    if !(m.state == ON && Due(m.cache.lastQuery, m.queryTimeout, now)) then Step(m, Pass)
    else Refreshed(m, link, later)
  }

  /**
   * A refresh in which every query answers replaces all six caches with the
   * answers, stamps `later`, and sends the six queries in order.
   */
  lemma HookCompletes(m: ControllerModel, now: real, link: Link, later: real)
    requires Consistent(m) && m.state == ON && Due(m.cache.lastQuery, m.queryTimeout, now)
    requires var axes := m.axisNames.value;
      && link.positions.Ok? && link.limits.Ok? && IsMovingReply(link, axes).Ok?
      && link.referenced.Ok? && link.pivot.Ok? && link.velocity.Ok?
    ensures var axes := m.axisNames.value;
      var s := Hooked(m, now, link, later);
      && s.result == Pass
      && s.model.cache == Cache(Some(link.positions.value), Some(link.limits.value), Some(IsMovingReply(link, axes).value),
                                Some(link.referenced.value), Some(link.pivot.value), Some(link.velocity.value), later)
      && s.model.log == m.log + [qPOS, qLIM, IsMoving(axes), qFRF, qSPI, qVLS]
  {
  }

  /**
   * A refresh that raises keeps `_last_query`, so the next access at any
   * later clock reading retries; the caches assigned before the failing
   * query already hold the new answers, and the velocity, queried last, is
   * never among them.
   */
  lemma HookFailsPartway(m: ControllerModel, now: real, link: Link, later: real, next: real)
    requires Consistent(m) && m.state == ON && Due(m.cache.lastQuery, m.queryTimeout, now)
    requires now <= next
    requires var axes := m.axisNames.value;
      || link.positions.Raise? || link.limits.Raise? || IsMovingReply(link, axes).Raise?
      || link.referenced.Raise? || link.pivot.Raise? || link.velocity.Raise?
    ensures var s := Hooked(m, now, link, later);
      && s.result.Fail?
      && s.model.cache.lastQuery == m.cache.lastQuery
      && s.model.cache.velocity == m.cache.velocity
      && (s.model.cache.positions == if link.positions.Ok? then Some(link.positions.value) else m.cache.positions)
      && (s.model.cache.limits == if link.positions.Ok? && link.limits.Ok? then Some(link.limits.value) else m.cache.limits)
      && (s.model.cache.moving == if link.positions.Ok? && link.limits.Ok? && IsMovingReply(link, m.axisNames.value).Ok?
                                  then Some(IsMovingReply(link, m.axisNames.value).value) else m.cache.moving)
      && (s.model.cache.referenced == if link.positions.Ok? && link.limits.Ok? && IsMovingReply(link, m.axisNames.value).Ok?
                                         && link.referenced.Ok?
                                      then Some(link.referenced.value) else m.cache.referenced)
      && (s.model.cache.pivotPoint == if link.positions.Ok? && link.limits.Ok? && IsMovingReply(link, m.axisNames.value).Ok?
                                         && link.referenced.Ok? && link.pivot.Ok?
                                      then Some(link.pivot.value) else m.cache.pivotPoint)
      && Due(s.model.cache.lastQuery, s.model.queryTimeout, next)
  {
  }

  /** After a successful `init_device` the first access past 0.1 s on the clock refreshes, starting with `qPOS()`. */
  lemma FirstAccessRefreshes(m: ControllerModel, host: string, port: int, link: Link, now: real, link': Link, later: real)
    requires Consistent(m)
    requires link.connect.Pass? && link.identity.Ok? && link.allAxes.Ok?
    requires now > QueryTimeout
    ensures var m' := Initialized(m, host, port, link);
      var s := Hooked(m', now, link', later);
      |s.model.log| > |m'.log| && s.model.log[|m'.log|] == qPOS
  {
    var m' := Initialized(m, host, port, link);
    assert Due(m'.cache.lastQuery, m'.queryTimeout, now);
  }

  /** A failed `init_device` leaves the device in FAULT, where the hook never queries the controller again. */
  lemma FailedInitNeverQueries(m: ControllerModel, host: string, port: int, link: Link, now: real, link': Link, later: real)
    requires Consistent(m)
    requires !(link.connect.Pass? && link.identity.Ok? && link.allAxes.Ok?)
    ensures var m' := Initialized(m, host, port, link);
      m'.state == FAULT && Hooked(m', now, link', later) == Step(m', Pass)
  {
  }

  /** What one axis device learns from `query_axis_state`. */
  datatype AxisReport = AxisReport(position: int, limit: bool, moving: bool, referenced: bool, velocity: int)

  /**
   * The report for `axis` out of the caches, looked up in the tuple's order:
   * position, limit switch, moving flag, referenced flag, then the velocity,
   * which is the same for every axis. A velocity still None cannot travel
   * as a double.
   */
  function Report(c: Cache, axis: string): (r: Result<AxisReport>)
    ensures r.Ok? <==> && c.positions.Some? && axis in c.positions.value
                       && c.limits.Some? && axis in c.limits.value
                       && c.moving.Some? && axis in c.moving.value
                       && c.referenced.Some? && axis in c.referenced.value
                       && c.velocity.Some?
    ensures r.Ok? ==> r.value == AxisReport(c.positions.value[axis], c.limits.value[axis], c.moving.value[axis],
                                            c.referenced.value[axis], c.velocity.value)
    ensures c.positions.None? ==> r == Raise(TypeError)
  {
    var position :- Subscript(c.positions, axis);
    var limit :- Subscript(c.limits, axis);
    var moving :- Subscript(c.moving, axis);
    var referenced :- Subscript(c.referenced, axis);
    if c.velocity.None? then Raise(TypeError)
    else Ok(AxisReport(position, limit, moving, referenced, c.velocity.value))
  }

  /** The `(float,)` array the 5-tuple travels as: the flags become 1.0 or 0.0. */
  function Encode(rep: AxisReport): (s: seq<int>)
    ensures |s| == 5 && s[0] == rep.position && s[4] == rep.velocity
    ensures Truthy(s[1]) == rep.limit && Truthy(s[2]) == rep.moving && Truthy(s[3]) == rep.referenced
  {
    [rep.position, ToDouble(rep.limit), ToDouble(rep.moving), ToDouble(rep.referenced), rep.velocity]
  }

  /** How the axis reads the array: position at 0, velocity at 4, and the truth of 1, 3 and 2 as limit, referenced and moving. */
  function Decode(s: seq<int>): AxisReport
    requires |s| == 5
  {
    AxisReport(s[0], Truthy(s[1]), Truthy(s[2]), Truthy(s[3]), s[4])
  }

  /** The axis reads back exactly the report the controller encoded. */
  lemma DecodeEncode(rep: AxisReport)
    ensures Decode(Encode(rep)) == rep
  {
  }

  /**
   * `set_position`'s parse: split on '=' into exactly an axis and a target,
   * and read the target as a float. Too few or too many pieces, or a target
   * that is no number, raise ValueError.
   */
  function ParseMoveCommand(position: string): (r: Result<Move>)
    ensures r.Ok? <==> |Split(position, '=')| == 2 && ParseFloat(Split(position, '=')[1]).Some?
    ensures r.Ok? ==> r.value == Move(Split(position, '=')[0], ParseFloat(Split(position, '=')[1]).value)
    ensures r.Raise? ==> r.error == ValueError
  {
    var parts := Split(position, '=');
    if |parts| != 2 then Raise(ValueError)
    else
      match ParseFloat(parts[1])
      case None => Raise(ValueError)
      case Some(target) => Ok(Move(parts[0], target))
  }

  /** A command without '=' has one piece only and is refused. */
  lemma CommandWithoutSeparator(position: string)
    requires '=' !in position
    ensures ParseMoveCommand(position) == Raise(ValueError)
  {
    SplitWithoutSeparator(position, '=');
  }

  /** The command an axis device sends, `"<axis>=<value>"`, is parsed back into that very move. */
  lemma MoveCommandRoundTrip(axis: string, value: int)
    requires '=' !in axis
    ensures ParseMoveCommand(FormatAssignment(axis, value)) == Ok(Move(axis, value))
  {
    RenderHasNoEquals(value);
    assert Join([axis, Render(value)], '=') == FormatAssignment(axis, value);
    SplitJoin([axis, Render(value)], '=');
    ParseRender(value);
  }

  /**
   * `set_position` on the model: parse, ask `qVMO` whether the target is
   * reachable, MOV only if it is and raise ValueError if not, then read the
   * error register.
   */
  function SetPositionStep(m: ControllerModel, position: string, link: Link): (s: Step<Result<int>>)
    ensures s.model == m.(log := s.model.log)
    ensures ParseMoveCommand(position).Raise? ==> s == Step(m, Raise(ValueError))
    ensures ParseMoveCommand(position).Ok? ==>
      var mv := ParseMoveCommand(position).value;
      && (link.reachable(mv.axis, mv.target) == Ok(false) ==>
            s == Step(m.(log := m.log + [qVMO(mv.axis, mv.target)]), Raise(ValueError)))
      && (link.reachable(mv.axis, mv.target) == Ok(true) ==>
            var x := MoveAndCheck(link, mv.axis, mv.target);
            s.model.log == m.log + [qVMO(mv.axis, mv.target)] + x.calls && s.result == x.reply)
    ensures (exists i :: |m.log| <= i < |s.model.log| && s.model.log[i].MOV?) <==>
      ParseMoveCommand(position).Ok? && link.reachable(ParseMoveCommand(position).value.axis, ParseMoveCommand(position).value.target) == Ok(true)
  {
    match ParseMoveCommand(position)
    case Raise(e) => Step(m, Raise(e))
    case Ok(mv) =>
      var m1 := m.(log := m.log + [qVMO(mv.axis, mv.target)]);
      assert m1.log[|m.log|] == qVMO(mv.axis, mv.target);
      match link.reachable(mv.axis, mv.target)
      case Raise(e) => Step(m1, Raise(e))
      case Ok(reachable) =>
        if !reachable then Step(m1, Raise(ValueError))
        else
          var x := MoveAndCheck(link, mv.axis, mv.target);
          var s := Step(m1.(log := m1.log + x.calls), x.reply);
          assert s.model.log[|m.log| + 1] == MOV(mv.axis, mv.target);
          s
  }

  /** `values[0:3]`: at most the first three values, in order. */
  function PivotArgs(values: seq<int>): (r: seq<int>)
    ensures |r| == if |values| < 3 then |values| else 3
    ensures forall i :: 0 <= i < |r| ==> r[i] == values[i]
  {
    if |values| < 3 then values else values[..3]
  }

  /**
   * A client's command through a `DeviceProxy`: Tango runs the hook first,
   * and a hook that raises fails the command before its body runs. When the
   * body only appends to the log, the hook's queries are sent before every
   * call of the body and none of the calls sent earlier is lost.
   */
  function Remote<T>(m: ControllerModel, now: real, link: Link, later: real, body: ControllerModel -> Step<Result<T>>)
    : (s: Step<Result<T>>)
    requires Consistent(m)
    requires forall m': ControllerModel :: m'.log <= body(m').model.log
    ensures m.log <= Hooked(m, now, link, later).model.log && Hooked(m, now, link, later).model.log <= s.model.log
    ensures Hooked(m, now, link, later).result.Fail? ==>
      s == Step(Hooked(m, now, link, later).model, Raise(Hooked(m, now, link, later).result.error))
    ensures Hooked(m, now, link, later).result.Pass? ==> s == body(Hooked(m, now, link, later).model)
  {
    var h := Hooked(m, now, link, later);
    match h.result
    case Fail(e) => Step(h.model, Raise(e))
    case Pass => body(h.model)
  }

  /**
   * An axis the controller did not name at start-up gets no report: the
   * moving flags cached before and after the hook are those of the named
   * axes only, so `query_axis_state` raises for it on every call.
   */
  lemma UnknownAxisNeverReported(m: ControllerModel, axis: string, now: real, link: Link, later: real)
    requires Consistent(m)
    requires m.axisNames.Some? && axis !in m.axisNames.value
    ensures RemoteQueryAxisState(m, axis, now, link, later).result.Raise?
    ensures Consistent(RemoteQueryAxisState(m, axis, now, link, later).model)
  {
    var h := Hooked(m, now, link, later);
    if h.result.Pass? && h.model.cache.moving.Some? {
      assert axis !in h.model.cache.moving.value;
    }
  }

  /** `get_axis_names` on the model: AttributeError while `init_device` never read them. */
  function AxisNamesOf(m: ControllerModel): (r: Result<seq<string>>)
    ensures r.Ok? <==> m.axisNames.Some?
    ensures r.Ok? ==> r.value == m.axisNames.value
    ensures r.Raise? ==> r.error == AttributeError
  {
    match m.axisNames
    case None => Raise(AttributeError)
    case Some(names) => Ok(names)
  }

  /** `get_axis_names` through a proxy. */
  function RemoteGetAxisNames(m: ControllerModel, now: real, link: Link, later: real): Step<Result<seq<string>>>
    requires Consistent(m)
  {
    Remote(m, now, link, later, (m': ControllerModel) => Step(m', AxisNamesOf(m')))
  }

  /** `query_axis_state(axis)` through a proxy, as the report it encodes. */
  function RemoteQueryAxisState(m: ControllerModel, axis: string, now: real, link: Link, later: real)
    : Step<Result<AxisReport>>
    requires Consistent(m)
  {
    Remote(m, now, link, later, (m': ControllerModel) => Step(m', Report(m'.cache, axis)))
  }

  /** `set_position(position)` through a proxy. */
  function RemoteSetPosition(m: ControllerModel, position: string, now: real, link: Link, later: real)
    : Step<Result<int>>
    requires Consistent(m)
  {
    Remote(m, now, link, later, (m': ControllerModel) => SetPositionStep(m', position, link))
  }

  /** `halt()` through a proxy: HLT with errors suppressed. */
  function RemoteHalt(m: ControllerModel, now: real, link: Link, later: real): Step<Result<()>>
    requires Consistent(m)
  {
    Remote(m, now, link, later, (m': ControllerModel) => Step(m'.(log := m'.log + [HLT]), Ok(())))
  }

  /** `stop()` through a proxy: STP with errors suppressed. */
  function RemoteStop(m: ControllerModel, now: real, link: Link, later: real): Step<Result<()>>
    requires Consistent(m)
  {
    Remote(m, now, link, later, (m': ControllerModel) => Step(m'.(log := m'.log + [STP]), Ok(())))
  }

  /** The controller device of PIGCSMotor.py. */
  class PIGCSController {
    const host: string
    const port: int
    var state: DevState
    var positions: Option<map<string, int>>
    var limits: Option<map<string, bool>>
    var moving: Option<map<string, bool>>
    var referenced: Option<map<string, bool>>
    var pivotPoint: Option<map<string, int>>
    var velocity: Option<int>
    var lastQuery: real
    var queryTimeout: real
    var axisNames: Option<seq<string>>
    var log: seq<Call>

    /** Everything the commands read or change. */
    function Model(): ControllerModel
      reads this
    {
      ControllerModel(state, Cache(positions, limits, moving, referenced, pivotPoint, velocity, lastQuery),
                      queryTimeout, axisNames, log)
    }

    ghost predicate Valid()
      reads this
    {
      Consistent(Model())
    }

    constructor(host: string, port: int)
      ensures this.host == host && this.port == port
      ensures Model() == ControllerModel(UNKNOWN, Cache(None, None, None, None, None, None, 0.0), 0.0, None, [])
      ensures Valid()
    {
      this.host, this.port := host, port;
      state := UNKNOWN;
      positions, limits, moving, referenced, pivotPoint, velocity := None, None, None, None, None, None;
      lastQuery, queryTimeout := 0.0, 0.0;
      axisNames, log := None, [];
    }

    /** `init_device`: see `Initialized`. */
    method InitDevice(link: Link)
      requires Valid()
      modifies this
      ensures Model() == Initialized(old(Model()), host, port, link)
      ensures Valid()
    {
      log := log + [ConnectTCPIP(host, port)];
      if link.connect.Pass? {
        log := log + [qIDN];
        if link.identity.Ok? {
          ResetCaches();
          log := log + [qSAI];
          if link.allAxes.Ok? {
            axisNames := Some(link.allAxes.value);
            state := ON;
            return;
          }
        }
      }
      state := FAULT;
    }

    /** The six caches emptied and the throttle reset, as `init_device` does once the controller answered `*IDN?`. */
    method ResetCaches()
      modifies this
      ensures Model() == old(Model()).(cache := InitialCache, queryTimeout := QueryTimeout)
    {
      positions, limits, referenced, moving, pivotPoint, velocity := None, None, None, None, None, None;
      lastQuery, queryTimeout := InitialLastQuery, QueryTimeout;
    }

    /** `always_executed_hook`: see `Hooked`. */
    method AlwaysExecutedHook(now: real, link: Link, later: real) returns (r: Outcome)
      requires Valid()
      modifies this
      ensures var s := Hooked(old(Model()), now, link, later);
        Model() == s.model && r == s.result
      ensures Valid()
    {
      if state == ON && now - lastQuery > queryTimeout {
        r := Refresh(link, later);
      } else {
        r := Pass;
      }
    }

    /** The hook's body past its gate: see `Refreshed`. */
    method Refresh(link: Link, later: real) returns (r: Outcome)
      requires axisNames.Some?
      modifies this
      ensures var s := Refreshed(old(Model()), link, later);
        Model() == s.model && r == s.result
    {
      r := RefreshMotion(link);
      if r.Fail? {
        return;
      }
      r := RefreshStatus(link, later);
    }

    /** Positions, limits and moving flags: see `MotionRefreshed`. */
    method RefreshMotion(link: Link) returns (r: Outcome)
      requires axisNames.Some?
      modifies this
      ensures var s := MotionRefreshed(old(Model()), link);
        Model() == s.model && r == s.result
    {
      var axes := axisNames.value;
      log := log + [qPOS];
      if link.positions.Raise? {
        return Fail(link.positions.error);
      }
      positions := Some(link.positions.value);
      log := log + [qLIM];
      if link.limits.Raise? {
        return Fail(link.limits.error);
      }
      limits := Some(link.limits.value);
      log := log + [IsMoving(axes)];
      var flags := IsMovingReply(link, axes);
      if flags.Raise? {
        return Fail(flags.error);
      }
      moving := Some(flags.value);
      return Pass;
    }

    /** Referenced flags, pivot point and velocity, then the clock stamp: see `StatusRefreshed`. */
    method RefreshStatus(link: Link, later: real) returns (r: Outcome)
      modifies this
      ensures var s := StatusRefreshed(old(Model()), link, later);
        Model() == s.model && r == s.result
    {
      log := log + [qFRF];
      if link.referenced.Raise? {
        return Fail(link.referenced.error);
      }
      referenced := Some(link.referenced.value);
      log := log + [qSPI];
      if link.pivot.Raise? {
        return Fail(link.pivot.error);
      }
      pivotPoint := Some(link.pivot.value);
      log := log + [qVLS];
      if link.velocity.Raise? {
        return Fail(link.velocity.error);
      }
      velocity := Some(link.velocity.value);
      lastQuery := later;
      return Pass;
    }

    /** `query_axis_state`: the axis's cached report, as a double array. */
    function QueryAxisState(axis: string): (r: Result<seq<int>>)
      reads this
      ensures r.Ok? <==> Report(Model().cache, axis).Ok?
      ensures r.Ok? ==> r.value == Encode(Report(Model().cache, axis).value)
      ensures r.Raise? ==> r.error == Report(Model().cache, axis).error
    {
      var rep :- Report(Model().cache, axis);
      Ok(Encode(rep))
    }

    /** `set_position`: see `SetPositionStep`. */
    method SetPosition(position: string, link: Link) returns (r: Result<int>)
      requires Valid()
      modifies this
      ensures var s := SetPositionStep(old(Model()), position, link);
        Model() == s.model && r == s.result
      ensures Valid()
    {
      var parts := Split(position, '=');
      if |parts| != 2 {
        return Raise(ValueError);
      }
      var axis := parts[0];
      var target := ParseFloat(parts[1]);
      if target.None? {
        return Raise(ValueError);
      }
      log := log + [qVMO(axis, target.value)];
      var reachable := link.reachable(axis, target.value);
      if reachable.Raise? {
        return Raise(reachable.error);
      }
      if !reachable.value {
        return Raise(ValueError);
      }
      log := log + [MOV(axis, target.value)];
      if link.move(axis, target.value).Fail? {
        return Raise(link.move(axis, target.value).error);
      }
      log := log + [qERR];
      return link.errorCode;
    }

    /** `read_pivot_X`: the pivot point's R coordinate. */
    function ReadPivotX(): (r: Result<int>)
      reads this
      ensures r.Ok? <==> pivotPoint.Some? && "R" in pivotPoint.value
      ensures r.Ok? ==> r.value == pivotPoint.value["R"]
    {
      Subscript(pivotPoint, "R")
    }

    /** `read_pivot_Y`: the pivot point's S coordinate. */
    function ReadPivotY(): (r: Result<int>)
      reads this
      ensures r.Ok? <==> pivotPoint.Some? && "S" in pivotPoint.value
      ensures r.Ok? ==> r.value == pivotPoint.value["S"]
    {
      Subscript(pivotPoint, "S")
    }

    /** `read_pivot_Z`: the pivot point's T coordinate. */
    function ReadPivotZ(): (r: Result<int>)
      reads this
      ensures r.Ok? <==> pivotPoint.Some? && "T" in pivotPoint.value
      ensures r.Ok? ==> r.value == pivotPoint.value["T"]
    {
      Subscript(pivotPoint, "T")
    }

    /** `set_pivot_point`: SPI on X, Y and Z with at most the first three values given. */
    method SetPivotPoint(values: seq<int>, link: Link) returns (r: Outcome)
      modifies this
      ensures Model() == old(Model()).(log := old(log) + [SPI(["X", "Y", "Z"], PivotArgs(values))])
      ensures r == link.setPivot(PivotArgs(values))
    {
      var args := if |values| < 3 then values else values[..3];
      log := log + [SPI(["X", "Y", "Z"], args)];
      return link.setPivot(args);
    }

    /** `find_references`: FRF; this server leaves the state alone. */
    method FindReferences(link: Link) returns (r: Outcome)
      modifies this
      ensures Model() == old(Model()).(log := old(log) + [FRF])
      ensures r == link.referenceSearch
    {
      log := log + [FRF];
      return link.referenceSearch;
    }

    /** `halt`: HLT with errors suppressed. */
    method Halt()
      modifies this
      ensures Model() == old(Model()).(log := old(log) + [HLT])
    {
      log := log + [HLT];
    }

    /** `stop`: STP with errors suppressed. */
    method Stop()
      modifies this
      ensures Model() == old(Model()).(log := old(log) + [STP])
    {
      log := log + [STP];
    }
  }

  /** The sign `-1 if inverted else 1`. */
  function Sign(inverted: bool): int {
    if inverted then -1 else 1
  }

  /** The position shown for a controller position `p`, and the target sent for a written `v`: both multiply by the sign. */
  function Signed(inverted: bool, p: int): (q: int)
    ensures inverted ==> q == -p
    ensures !inverted ==> q == p
  {
    Sign(inverted) * p
  }

  /** Applying the sign twice gives the value back. */
  lemma SignedTwice(inverted: bool, v: int)
    ensures Signed(inverted, Signed(inverted, v)) == v
  {
  }

  /**
   * A written position comes back: the command the axis sends for `v` is
   * parsed into a move of the axis to `Signed(inverted, v)`, and once the
   * controller reports that position the axis shows `v` again.
   */
  lemma WriteReadRoundTrip(axis: string, inverted: bool, v: int)
    requires '=' !in axis
    ensures var target := Signed(inverted, v);
      && ParseMoveCommand(FormatAssignment(axis, target)) == Ok(Move(axis, target))
      && Signed(inverted, target) == v
  {
    MoveCommandRoundTrip(axis, Signed(inverted, v));
    SignedTwice(inverted, v);
  }

  /** The axis state after a hook: WARN when unreferenced, whatever the motion; else MOVING or ON. */
  function AxisState(moving: bool, referenced: bool): (s: DevState)
    ensures s == WARN <==> !referenced
    ensures s == MOVING <==> moving && referenced
    ensures s == ON <==> !moving && referenced
  {
    var s := if moving then MOVING else ON;
    if !referenced then WARN else s
  }

  /** The axis device of PIGCSMotor.py. */
  class PIGCSAxis {
    const ctrl: PIGCSController
    const axis: string
    var state: DevState
    var position: int
    var velocity: int
    var limit: bool
    var inverted: bool
    var referenced: bool

    constructor(ctrl: PIGCSController, axis: string)
      ensures this.ctrl == ctrl && this.axis == axis
      ensures state == UNKNOWN && position == 0 && velocity == 0 && !limit && !inverted && !referenced
    {
      this.ctrl, this.axis := ctrl, axis;
      state, position, velocity := UNKNOWN, 0, 0;
      limit, inverted, referenced := false, false, false;
    }

    /**
     * `init_device`: ask the controller for its axis names; ON with every
     * field zeroed or cleared when this axis is among them, FAULT otherwise.
     * A failing controller call raises and changes nothing here.
     */
    method InitDevice(now: real, link: Link, later: real) returns (r: Outcome)
      requires ctrl.Valid()
      modifies this, ctrl
      ensures ctrl.Valid()
      ensures var s := RemoteGetAxisNames(old(ctrl.Model()), now, link, later);
        && ctrl.Model() == s.model
        && r == Status(s.result)
        && (s.result.Ok? && axis in s.result.value ==>
              state == ON && position == 0 && velocity == 0 && !limit && !inverted && !referenced)
        && (s.result.Ok? && axis !in s.result.value ==>
              && state == FAULT && position == old(position) && velocity == old(velocity)
              && limit == old(limit) && inverted == old(inverted) && referenced == old(referenced))
        && (s.result.Raise? ==>
              && state == old(state) && position == old(position) && velocity == old(velocity)
              && limit == old(limit) && inverted == old(inverted) && referenced == old(referenced))
    {
      var hook := ctrl.AlwaysExecutedHook(now, link, later);
      if hook.Fail? {
        return hook;
      }
      if ctrl.axisNames.None? {
        return Fail(AttributeError);
      }
      var names := ctrl.axisNames.value;
      if axis in names {
        state := ON;
        position, velocity, limit := 0, 0, false;
        inverted, referenced := false, false;
      } else {
        state := FAULT;
      }
      return Pass;
    }

    /**
     * `always_executed_hook`: fetch the axis's report from the controller,
     * store position, velocity, limit switch and referenced flag, then set
     * the state from the moving and referenced flags. An axis the controller
     * did not name gets no report, so its state (FAULT after `init_device`)
     * never changes here.
     */
    method AlwaysExecutedHook(now: real, link: Link, later: real) returns (r: Outcome)
      requires ctrl.Valid()
      modifies this, ctrl
      ensures ctrl.Valid()
      ensures var s := RemoteQueryAxisState(old(ctrl.Model()), axis, now, link, later);
        && ctrl.Model() == s.model
        && r == Status(s.result)
        && (s.result.Ok? ==>
              var rep := s.result.value;
              && position == rep.position && velocity == rep.velocity
              && limit == rep.limit && referenced == rep.referenced
              && state == AxisState(rep.moving, rep.referenced))
        && (s.result.Raise? ==>
              && state == old(state) && position == old(position) && velocity == old(velocity)
              && limit == old(limit) && referenced == old(referenced))
        && inverted == old(inverted)
      ensures old(ctrl.Model()).axisNames.Some? && axis !in old(ctrl.Model()).axisNames.value ==> r.Fail? && state == old(state)
    {
      if ctrl.axisNames.Some? && axis !in ctrl.axisNames.value {
        UnknownAxisNeverReported(ctrl.Model(), axis, now, link, later);
      }
      var hook := ctrl.AlwaysExecutedHook(now, link, later);
      if hook.Fail? {
        return hook;
      }
      var reply := ctrl.QueryAxisState(axis);
      if reply.Raise? {
        return Fail(reply.error);
      }
      var values := reply.value;
      DecodeEncode(Report(ctrl.Model().cache, axis).value);
      position := values[0];
      velocity := values[4];
      limit := Truthy(values[1]);
      referenced := Truthy(values[3]);
      if Truthy(values[2]) {
        state := MOVING;
      } else {
        state := ON;
      }
      if !referenced {
        state := WARN;
      }
      return Pass;
    }

    /** `read_position`: the stored position, negated when inverted. */
    function ReadPosition(): (p: int)
      reads this
      ensures p == Signed(inverted, position)
    {
      Sign(inverted) * position
    }

    /**
     * `write_position`: send `"<axis>=<sign * value>"` to the controller's
     * `set_position`; MOVING when the answer is 0, nothing else changes here.
     */
    method WritePosition(value: int, now: real, link: Link, later: real) returns (r: Outcome)
      requires ctrl.Valid()
      modifies this, ctrl
      ensures ctrl.Valid()
      ensures var s := RemoteSetPosition(old(ctrl.Model()), FormatAssignment(axis, Signed(old(inverted), value)), now, link, later);
        && ctrl.Model() == s.model
        && r == Status(s.result)
        && state == (if s.result == Ok(0) then MOVING else old(state))
      ensures position == old(position) && velocity == old(velocity) && limit == old(limit)
      ensures inverted == old(inverted) && referenced == old(referenced)
    {
      var target := Sign(inverted) * value;
      var hook := ctrl.AlwaysExecutedHook(now, link, later);
      if hook.Fail? {
        return hook;
      }
      var answer := ctrl.SetPosition(FormatAssignment(axis, target), link);
      if answer.Raise? {
        return Fail(answer.error);
      }
      if answer.value == 0 {
        state := MOVING;
      }
      return Pass;
    }

    /** `write_inverted`: only the flag changes. */
    method WriteInverted(value: bool)
      modifies this
      ensures inverted == value
      ensures state == old(state) && position == old(position) && velocity == old(velocity)
      ensures limit == old(limit) && referenced == old(referenced)
    {
      inverted := value;
    }

    /** `halt_axis`: the controller's `halt`, which stops every axis; nothing here changes. */
    method HaltAxis(now: real, link: Link, later: real) returns (r: Outcome)
      requires ctrl.Valid()
      modifies ctrl
      ensures ctrl.Valid()
      ensures var s := RemoteHalt(old(ctrl.Model()), now, link, later);
        ctrl.Model() == s.model && r == Status(s.result)
    {
      var hook := ctrl.AlwaysExecutedHook(now, link, later);
      if hook.Fail? {
        return hook;
      }
      ctrl.Halt();
      return Pass;
    }

    /** `stop_axis`: the controller's `stop`, which stops every motion abruptly; nothing here changes. */
    method StopAxis(now: real, link: Link, later: real) returns (r: Outcome)
      requires ctrl.Valid()
      modifies ctrl
      ensures ctrl.Valid()
      ensures var s := RemoteStop(old(ctrl.Model()), now, link, later);
        ctrl.Model() == s.model && r == Status(s.result)
    {
      var hook := ctrl.AlwaysExecutedHook(now, link, later);
      if hook.Fail? {
        return hook;
      }
      ctrl.Stop();
      return Pass;
    }
  }
}
