/**
 * PIGCSController.py: the earlier controller server of the two-server version. It
 * owns the controller link, caches positions, limit switches and moving
 * flags for every axis the controller reports, and serves per-axis commands
 * to the axis devices of PIGCSAxis.py.
 */
module ControllerServer {
  import opened Python
  import opened Tango
  import opened Text
  import opened Gcs
  import opened Polling

  /** What one axis device learns from `query_axis_state`. */
  datatype AxisReport = AxisReport(position: int, limit: bool, moving: bool)

  /**
   * The report for `axis` out of the caches: position, limit switch and
   * moving flag, looked up in that order, so the first cache that is None or
   * lacks the axis decides the exception.
   */
  function Report(c: MotionCache, axis: string): (r: Result<AxisReport>)
    ensures r.Ok? <==> && c.positions.Some? && axis in c.positions.value
                       && c.limits.Some? && axis in c.limits.value
                       && c.moving.Some? && axis in c.moving.value
    ensures r.Ok? ==> r == Ok(AxisReport(c.positions.value[axis], c.limits.value[axis], c.moving.value[axis]))
    ensures c.positions.None? ==> r == Raise(TypeError)
  {
    var position :- Subscript(c.positions, axis);
    var limit :- Subscript(c.limits, axis);
    var moving :- Subscript(c.moving, axis);
    Ok(AxisReport(position, limit, moving))
  }

  /** The `(float,)` array the 3-tuple travels as: the flags become 1.0 or 0.0. */
  function Encode(rep: AxisReport): (s: seq<int>)
    ensures |s| == 3 && s[0] == rep.position
    ensures Truthy(s[1]) == rep.limit && Truthy(s[2]) == rep.moving
  {
    [rep.position, ToDouble(rep.limit), ToDouble(rep.moving)]
  }

  /**
   * `set_position`'s parse as written: the axis is the string's first
   * character and the target the float value of its second character alone.
   */
  function ParseCharIndexed(position: string): (r: Result<Move>)
    ensures r.Ok? <==> |position| >= 2 && IsDigit(position[1])
    ensures r.Ok? ==> r.value == Move([position[0]], position[1] as int - '0' as int)
    ensures |position| < 2 ==> r == Raise(IndexError)
    ensures |position| >= 2 && !IsDigit(position[1]) ==> r == Raise(ValueError)
  {
    if |position| < 1 then Raise(IndexError)
    else
      var axis := [position[0]];
      if |position| < 2 then Raise(IndexError)
      else
        match ParseFloat([position[1]])
        case None => Raise(ValueError)
        case Some(target) => Ok(Move(axis, target))
  }

  /**
   * The command the axis device sends, `"<axis>=<value>"`, is never parsed
   * into the move it asks for: a one-letter axis puts '=' where the digit is
   * read (ValueError), and any other axis name comes back cut to one letter.
   */
  lemma CharIndexedParseMissesAxisCommands(axis: string, value: int)
    ensures ParseCharIndexed(FormatAssignment(axis, value)) != Ok(Move(axis, value))
    ensures |axis| == 1 ==> ParseCharIndexed(FormatAssignment(axis, value)) == Raise(ValueError)
  {
    var s := FormatAssignment(axis, value);
    if |axis| == 1 {
      assert s[1] == '=';
    }
  }

  /** The controller device's state, as the axis devices' commands change it. */
  datatype ControllerModel = ControllerModel(
    cache: MotionCache,
    queryTimeout: real,
    axisNames: seq<string>,
    log: seq<Call>)

  /** A command's new controller state and its result. */
  datatype Step<T> = Step(model: ControllerModel, result: T)

  /** `always_executed_hook` on the model: the three-query refresh over the axes captured at start-up. */
  function Hooked(m: ControllerModel, now: real, link: Link, later: real): (s: Step<Outcome>)
    ensures !Due(m.cache.lastQuery, m.queryTimeout, now) ==> s == Step(m, Pass)
    ensures s.model.axisNames == m.axisNames && s.model.queryTimeout == m.queryTimeout
  {
    var h := MotionHook(m.cache, m.queryTimeout, m.axisNames, link, now, later);
    Step(m.(cache := h.cache, log := m.log + h.calls), h.outcome)
  }

  /** `set_position` on the model: parse, then MOV and read the error register. */
  function SetPositionStep(m: ControllerModel, position: string, link: Link): (s: Step<Result<int>>)
    ensures s.model.cache == m.cache && s.model.queryTimeout == m.queryTimeout && s.model.axisNames == m.axisNames
    ensures ParseCharIndexed(position).Raise? ==> s == Step(m, Raise(ParseCharIndexed(position).error))
    ensures ParseCharIndexed(position).Ok? ==>
      var mv := ParseCharIndexed(position).value;
      var x := MoveAndCheck(link, mv.axis, mv.target);
      s.model.log == m.log + x.calls && s.result == x.reply
  {
    match ParseCharIndexed(position)
    case Raise(e) => Step(m, Raise(e))
    case Ok(mv) =>
      var x := MoveAndCheck(link, mv.axis, mv.target);
      Step(m.(log := m.log + x.calls), x.reply)
  }

  /**
   * A client's command through a `DeviceProxy`: Tango runs the hook first,
   * and a hook that raises fails the command before its body runs. When the
   * body only appends to the log, the hook's queries are sent before every
   * call of the body and none of the calls sent earlier is lost.
   */
  function Remote<T>(m: ControllerModel, now: real, link: Link, later: real, body: ControllerModel -> Step<Result<T>>)
    : (s: Step<Result<T>>)
    requires forall m': ControllerModel :: m'.log <= body(m').model.log
    ensures m.log <= Hooked(m, now, link, later).model.log && Hooked(m, now, link, later).model.log <= s.model.log
    ensures Hooked(m, now, link, later).result.Fail? ==>
      s == Step(Hooked(m, now, link, later).model, Raise(Hooked(m, now, link, later).result.error))
    ensures Hooked(m, now, link, later).result.Pass? ==> s == body(Hooked(m, now, link, later).model)
  {
    var h := Hooked(m, now, link, later);
    match h.result
    case Fail(e) => Step(h.model, Raise(e))
    case Pass => body(h.model)
  }

  /** `get_axis_names` through a proxy. */
  function RemoteGetAxisNames(m: ControllerModel, now: real, link: Link, later: real): Step<Result<seq<string>>> {
    Remote(m, now, link, later, (m': ControllerModel) => Step(m', Ok(m'.axisNames)))
  }

  /** `query_axis_state(axis)` through a proxy, as the report it encodes. */
  function RemoteQueryAxisState(m: ControllerModel, axis: string, now: real, link: Link, later: real)
    : Step<Result<AxisReport>>
  {
    Remote(m, now, link, later, (m': ControllerModel) => Step(m', Report(m'.cache, axis)))
  }

  /** `set_position(position)` through a proxy. */
  function RemoteSetPosition(m: ControllerModel, position: string, now: real, link: Link, later: real)
    : Step<Result<int>>
  {
    Remote(m, now, link, later, (m': ControllerModel) => SetPositionStep(m', position, link))
  }

  /** `halt()` through a proxy: HLT with errors suppressed. */
  function RemoteHalt(m: ControllerModel, now: real, link: Link, later: real): Step<Result<()>> {
    Remote(m, now, link, later, (m': ControllerModel) => Step(m'.(log := m'.log + [HLT]), Ok(())))
  }

  /**
   * `get_axis_names` answers with the list `init_device` captured: no
   * command an axis device sends changes it, and the hook queries no names.
   */
  lemma AxisNamesCapturedOnce(m: ControllerModel, axis: string, position: string, now: real, link: Link, later: real)
    ensures var s := RemoteGetAxisNames(m, now, link, later);
      s.model.axisNames == m.axisNames && (s.result.Ok? ==> s.result.value == m.axisNames)
    ensures RemoteQueryAxisState(m, axis, now, link, later).model.axisNames == m.axisNames
    ensures RemoteSetPosition(m, position, now, link, later).model.axisNames == m.axisNames
    ensures RemoteHalt(m, now, link, later).model.axisNames == m.axisNames
  {
  }

  /**
   * A move requested through an axis device never reaches the controller as
   * a MOV: the calls sent are at most the hook's queries, and the result is
   * an exception.
   */
  lemma RemoteAxisMoveNeverSent(m: ControllerModel, axis: string, value: int, now: real, link: Link, later: real)
    requires |axis| == 1
    ensures var s := RemoteSetPosition(m, FormatAssignment(axis, value), now, link, later);
      && s.result.Raise?
      && s.model == Hooked(m, now, link, later).model
      && (Hooked(m, now, link, later).result.Pass? ==> s.result == Raise(ValueError))
  {
    CharIndexedParseMissesAxisCommands(axis, value);
  }

  /** The PIGCSController device. */
  class PIGCSController {
    const host: string
    const port: int
    var state: DevState
    var positions: Option<map<string, int>>
    var limits: Option<map<string, bool>>
    var moving: Option<map<string, bool>>
    var lastQuery: real
    var queryTimeout: real
    var axisNames: seq<string>
    var log: seq<Call>

    /** The state and attributes the hook reads and writes. */
    function Cache(): MotionCache
      reads this
    {
      MotionCache(state, positions, limits, moving, lastQuery)
    }

    /** Everything the commands read or change. */
    function Model(): ControllerModel
      reads this
    {
      ControllerModel(Cache(), queryTimeout, axisNames, log)
    }

    constructor(host: string, port: int)
      ensures this.host == host && this.port == port
      ensures Model() == ControllerModel(MotionCache(UNKNOWN, None, None, None, 0.0), 0.0, [], [])
    {
      this.host, this.port := host, port;
      state := UNKNOWN;
      positions, limits, moving := None, None, None;
      lastQuery, queryTimeout := 0.0, 0.0;
      axisNames, log := [], [];
    }

    /**
     * `init_device`: connect, identify, reset the caches and the throttle,
     * capture `allaxes`, and set ON. A failure sets OFF and exits with status
     * 255; a failure reading `allaxes` comes after the resets took effect.
     */
    method InitDevice(link: Link) returns (exit: Option<int>)
      modifies this
      ensures exit.None? <==> link.connect.Pass? && link.identity.Ok? && link.allAxes.Ok?
      ensures log == old(log) + [ConnectTCPIP(host, port)] + (if link.connect.Pass? then [qIDN] else [])
                    + (if link.connect.Pass? && link.identity.Ok? then [qSAI] else [])
      ensures exit.None? ==> state == ON && axisNames == link.allAxes.value
      ensures exit.Some? ==> exit == Some(255) && state == OFF && axisNames == old(axisNames)
      ensures link.connect.Pass? && link.identity.Ok? ==>
        && positions == None && limits == None && moving == None
        && lastQuery == InitialLastQuery && queryTimeout == QueryTimeout
      ensures !(link.connect.Pass? && link.identity.Ok?) ==>
        && positions == old(positions) && limits == old(limits) && moving == old(moving)
        && lastQuery == old(lastQuery) && queryTimeout == old(queryTimeout)
    {
      log := log + [ConnectTCPIP(host, port)];
      if link.connect.Fail? {
        state := OFF;
        return Some(255);
      }
      log := log + [qIDN];
      if link.identity.Raise? {
        state := OFF;
        return Some(255);
      }
      positions, limits, moving := None, None, None;
      lastQuery, queryTimeout := InitialLastQuery, QueryTimeout;
      log := log + [qSAI];
      if link.allAxes.Raise? {
        state := OFF;
        return Some(255);
      }
      axisNames := link.allAxes.value;
      state := ON;
      return None;
    }

    /**
     * `always_executed_hook`: when the last query is older than the timeout,
     * re-query positions, limits and the moving flags of the captured axes,
     * set MOVING or ON, and stamp the clock.
     */
    method AlwaysExecutedHook(now: real, link: Link, later: real) returns (r: Outcome)
      modifies this
      ensures var h := Hooked(old(Model()), now, link, later);
        Model() == h.model && r == h.result
    {
      if now - lastQuery > queryTimeout {
        r := Refresh(link, later);
      } else {
        r := Pass;
      }
    }

    /** The hook's body past its gate: see `MotionRefresh`. */
    method Refresh(link: Link, later: real) returns (r: Outcome)
      modifies this
      ensures var h := MotionRefresh(old(Cache()), axisNames, link, later);
        Cache() == h.cache && log == old(log) + h.calls && r == h.outcome
      ensures queryTimeout == old(queryTimeout) && axisNames == old(axisNames)
    {
      log := log + [qPOS];
      if link.positions.Raise? {
        return Fail(link.positions.error);
      }
      positions := Some(link.positions.value);
      log := log + [qLIM];
      if link.limits.Raise? {
        return Fail(link.limits.error);
      }
      limits := Some(link.limits.value);
      log := log + [IsMoving(axisNames)];
      var reply := IsMovingReply(link, axisNames);
      if reply.Raise? {
        return Fail(reply.error);
      }
      StoreMoving(reply.value, later);
      return Pass;
    }

    /** The end of the hook: cache the moving flags, MOVING when any is set and ON otherwise, and stamp the clock. */
    method StoreMoving(flags: map<string, bool>, later: real)
      modifies this
      ensures Cache() == old(Cache()).(state := MotionState(flags), moving := Some(flags), lastQuery := later)
      ensures log == old(log) && queryTimeout == old(queryTimeout) && axisNames == old(axisNames)
    {
      moving := Some(flags);
      state := MotionState(flags);
      lastQuery := later;
    }

    /** `set_position`: parse the command by character position, MOV, and return the error register. */
    method SetPosition(position: string, link: Link) returns (r: Result<int>)
      modifies this
      ensures var s := SetPositionStep(old(Model()), position, link);
        Model() == s.model && r == s.result
    {
      if |position| < 1 {
        return Raise(IndexError);
      }
      var axis := [position[0]];
      if |position| < 2 {
        return Raise(IndexError);
      }
      var target := ParseFloat([position[1]]);
      if target.None? {
        return Raise(ValueError);
      }
      log := log + [MOV(axis, target.value)];
      if link.move(axis, target.value).Fail? {
        return Raise(link.move(axis, target.value).error);
      }
      log := log + [qERR];
      return link.errorCode;
    }

    /** `query_axis_state`: the cached position, limit switch and moving flag of one axis, as a double array. */
    function QueryAxisState(axis: string): (r: Result<seq<int>>)
      reads this
      ensures r.Ok? <==> Report(Cache(), axis).Ok?
      ensures r.Ok? ==> r.value == Encode(Report(Cache(), axis).value)
      ensures r.Raise? ==> r.error == Report(Cache(), axis).error
    {
      var rep :- Report(Cache(), axis);
      Ok(Encode(rep))
    }

    /** `get_axis_names`: the list captured by `init_device`, with no query. */
    function GetAxisNames(): (names: seq<string>)
      reads this
      ensures names == Model().axisNames
    {
      axisNames
    }

    /**
     * `query_axis_limits`: the axis's lower travel limit from `qTMN()`, then
     * its upper one from `qTMX()`; an axis missing from the first answer
     * raises before the second query is sent.
     */
    method QueryAxisLimits(axis: string, link: Link) returns (r: Result<seq<int>>)
      modifies this
      ensures r.Ok? <==> && link.travelMin.Ok? && axis in link.travelMin.value
                         && link.travelMax.Ok? && axis in link.travelMax.value
      ensures r.Ok? ==> r.value == [link.travelMin.value[axis], link.travelMax.value[axis]]
      ensures log == old(log) + [qTMN] + (if link.travelMin.Ok? && axis in link.travelMin.value then [qTMX] else [])
      ensures Cache() == old(Cache()) && queryTimeout == old(queryTimeout) && axisNames == old(axisNames)
    {
      log := log + [qTMN];
      if link.travelMin.Raise? {
        return Raise(link.travelMin.error);
      }
      if axis !in link.travelMin.value {
        return Raise(KeyError);
      }
      var lower := link.travelMin.value[axis];
      log := log + [qTMX];
      if link.travelMax.Raise? {
        return Raise(link.travelMax.error);
      }
      if axis !in link.travelMax.value {
        return Raise(KeyError);
      }
      var upper := link.travelMax.value[axis];
      return Ok([lower, upper]);
    }

    /** `find_references`: ON when every axis reports referenced, FAULT otherwise. */
    method FindReferences(link: Link) returns (r: Outcome)
      modifies this
      ensures var x := ReferenceSearch(link);
        && log == old(log) + x.calls
        && r == Status(x.reply)
        && state == (if x.reply.Ok? then x.reply.value else old(state))
      ensures positions == old(positions) && limits == old(limits) && moving == old(moving)
      ensures lastQuery == old(lastQuery) && queryTimeout == old(queryTimeout) && axisNames == old(axisNames)
    {
      log := log + [FRF];
      if link.referenceSearch.Fail? {
        return Fail(link.referenceSearch.error);
      }
      log := log + [qFRF];
      if link.referenced.Raise? {
        return Fail(link.referenced.error);
      }
      state := ReferenceState(link.referenced.value);
      return Pass;
    }

    /** `halt`: send HLT with errors suppressed; nothing else changes. */
    method Halt()
      modifies this
      ensures Model() == old(Model()).(log := old(log) + [HLT])
    {
      log := log + [HLT];
    }
  }
}
