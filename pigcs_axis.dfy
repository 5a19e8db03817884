/**
 * PIGCSAxis.py: the earlier axis server of the two-server version. Each device
 * stands for one controller axis and reaches the PIGCSController device
 * through a proxy for every command.
 */
module AxisServer {
  import opened Python
  import opened Tango
  import opened Text
  import opened Gcs
  import opened ControllerServer

  /** How the axis reads the array: `state[0]`, `bool(state[1])`, and the truth of `state[2]`. */
  function Decode(s: seq<int>): AxisReport
    requires |s| == 3
  {
    AxisReport(s[0], Truthy(s[1]), Truthy(s[2]))
  }

  /** The axis reads back exactly the report the controller encoded. */
  lemma DecodeEncode(rep: AxisReport)
    ensures Decode(Encode(rep)) == rep
  {
  }

  /** The PIGCSAxis device. */
  class PIGCSAxis {
    const ctrl: PIGCSController
    const axis: string
    var state: DevState
    var position: int
    var limit: bool

    constructor(ctrl: PIGCSController, axis: string)
      ensures this.ctrl == ctrl && this.axis == axis
      ensures state == UNKNOWN && position == 0 && !limit
    {
      this.ctrl, this.axis := ctrl, axis;
      state, position, limit := UNKNOWN, 0, false;
    }

    /**
     * `init_device`: ask the controller for its axis names; ON with position
     * and limit zeroed when this axis is among them, FAULT otherwise. A
     * failing controller call raises and changes nothing here.
     */
    method InitDevice(now: real, link: Link, later: real) returns (r: Outcome)
      modifies this, ctrl
      ensures var s := RemoteGetAxisNames(old(ctrl.Model()), now, link, later);
        && ctrl.Model() == s.model
        && r == Status(s.result)
        && (s.result.Ok? && axis in s.result.value ==> state == ON && position == 0 && !limit)
        && (s.result.Ok? && axis !in s.result.value ==> state == FAULT && position == old(position) && limit == old(limit))
        && (s.result.Raise? ==> state == old(state) && position == old(position) && limit == old(limit))
    {
      var hook := ctrl.AlwaysExecutedHook(now, link, later);
      if hook.Fail? {
        return hook;
      }
      var names := ctrl.GetAxisNames();
      if axis in names {
        state := ON;
        position := 0;
        limit := false;
      } else {
        state := FAULT;
      }
      return Pass;
    }

    /**
     * `always_executed_hook`: fetch the axis's report from the controller,
     * take its position and limit switch, and set MOVING when the moving
     * flag is set and ON otherwise, whatever the state was.
     */
    method AlwaysExecutedHook(now: real, link: Link, later: real) returns (r: Outcome)
      modifies this, ctrl
      ensures var s := RemoteQueryAxisState(old(ctrl.Model()), axis, now, link, later);
        && ctrl.Model() == s.model
        && r == Status(s.result)
        && (s.result.Ok? ==> && position == s.result.value.position && limit == s.result.value.limit
                             && state == (if s.result.value.moving then MOVING else ON))
        && (s.result.Raise? ==> state == old(state) && position == old(position) && limit == old(limit))
    {
      var hook := ctrl.AlwaysExecutedHook(now, link, later);
      if hook.Fail? {
        return hook;
      }
      var reply := ctrl.QueryAxisState(axis);
      if reply.Raise? {
        return Fail(reply.error);
      }
      var values := reply.value;
      DecodeEncode(Report(ctrl.Cache(), axis).value);
      position := values[0];
      limit := Truthy(values[1]);
      if Truthy(values[2]) {
        state := MOVING;
      } else {
        state := ON;
      }
      return Pass;
    }

    /** `read_position`: the position the last hook stored, as it is: this server inverts nothing. */
    function ReadPosition(): (p: int)
      reads this
      ensures p == position
    {
      position
    }

    /** `read_limit_switch`: the limit switch the last hook stored. */
    function ReadLimitSwitch(): (l: bool)
      reads this
      ensures l == limit
    {
      limit
    }

    /**
     * `write_position`: send `"<axis>=<value>"` to the controller's
     * `set_position`; MOVING when the answer is 0, nothing else changes here.
     */
    method WritePosition(value: int, now: real, link: Link, later: real) returns (r: Outcome)
      modifies this, ctrl
      ensures var s := RemoteSetPosition(old(ctrl.Model()), FormatAssignment(axis, value), now, link, later);
        && ctrl.Model() == s.model
        && r == Status(s.result)
        && state == (if s.result == Ok(0) then MOVING else old(state))
        && position == old(position) && limit == old(limit)
    {
      var hook := ctrl.AlwaysExecutedHook(now, link, later);
      if hook.Fail? {
        return hook;
      }
      var answer := ctrl.SetPosition(FormatAssignment(axis, value), link);
      if answer.Raise? {
        return Fail(answer.error);
      }
      if answer.value == 0 {
        state := MOVING;
      }
      return Pass;
    }

    /** `stop_axis`: the controller's `halt`, which stops every axis; nothing here changes. */
    method StopAxis(now: real, link: Link, later: real) returns (r: Outcome)
      modifies ctrl
      ensures var s := RemoteHalt(old(ctrl.Model()), now, link, later);
        ctrl.Model() == s.model && r == Status(s.result)
    {
      var hook := ctrl.AlwaysExecutedHook(now, link, later);
      if hook.Fail? {
        return hook;
      }
      ctrl.Halt();
      return Pass;
    }
  }
}
