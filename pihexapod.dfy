/**
 * PIHexapod.py: the monolithic server. One device owns the controller link,
 * caches positions, limit switches and moving flags for the six axes, and
 * exposes each axis through three attributes created at start-up.
 */
module HexapodServer {
  import opened Python
  import opened Tango
  import opened Text
  import opened Gcs
  import opened Polling

  /** `list('XYZUVW')`: the axes whose moving flags the hook asks for. */
  const HexapodAxes: seq<string> := ["X", "Y", "Z", "U", "V", "W"]

  /** The three attributes made per axis: position (read-write, double), limit switch and moving flag (read, boolean). */
  datatype AttrKind = Position | LimitSwitch | MovingFlag

  /** A dynamic attribute: its name, its kind, and the unit set on its default properties. */
  datatype Attr = Attr(name: string, kind: AttrKind, unit: Option<string>)

  /** `create_axis_attributes(ax, unit=unit)`: `ax`, `lim_ax` and `mov_ax`, the unit on the position only. */
  function AxisAttributes(ax: string, unit: string): seq<Attr> {
    [Attr(ax, Position, Some(unit)), Attr("lim_" + ax, LimitSwitch, None), Attr("mov_" + ax, MovingFlag, None)]
  }

  /** The attributes made by `for ax in axes: create_axis_attributes(ax, unit=unit)`. */
  function AttributesFor(axes: string, unit: string): seq<Attr> {
    if axes == [] then [] else AttributesFor(axes[..|axes| - 1], unit) + AxisAttributes([axes[|axes| - 1]], unit)
  }

  /** Everything `initialize_dynamic_attributes` creates. */
  function DynamicAttributes(): seq<Attr> {
    AttributesFor("xyz", "mm") + AttributesFor("uvw", "deg")
  }

  /** `read_pos`'s key: the attribute name uppercased. */
  function PositionKey(name: string): string {
    Upper(name)
  }

  /** `read_limit`'s and `read_is_moving`'s key: `name.upper()[-1]`, uppercased once more. */
  function SuffixKey(name: string): (r: Result<string>)
    ensures r == if name == [] then Raise(IndexError) else Ok([UpperChar(name[|name| - 1])])
  {
    if name == [] then Raise(IndexError)
    else
      var c := UpperChar(name[|name| - 1]);
      assert Upper(name)[|name| - 1] == c;
      assert UpperChar(c) == c;
      assert Upper([c]) == [c] by {
        assert |Upper([c])| == 1 && Upper([c])[0] == c;
      }
      Ok(Upper([Upper(name)[|name| - 1]]))
  }

  /** The cache key an attribute's reader looks up. */
  function AttributeKey(a: Attr): Result<string> {
    if a.kind == Position then Ok(PositionKey(a.name)) else SuffixKey(a.name)
  }

  /** `initialize_dynamic_attributes` makes x, y, z in mm and u, v, w in degrees, three attributes each. */
  lemma {:induction false} DynamicAttributeTable()
    ensures DynamicAttributes() ==
      AxisAttributes("x", "mm") + AxisAttributes("y", "mm") + AxisAttributes("z", "mm") +
      AxisAttributes("u", "deg") + AxisAttributes("v", "deg") + AxisAttributes("w", "deg")
    ensures |DynamicAttributes()| == 18
  {
    AttributesForThree('x', 'y', 'z', "mm");
    AttributesForThree('u', 'v', 'w', "deg");
  }

  /** A loop over three letters makes the three letters' attributes in order. */
  lemma {:induction false} AttributesForThree(a: char, b: char, c: char, unit: string)
    ensures AttributesFor([a, b, c], unit) == AxisAttributes([a], unit) + AxisAttributes([b], unit) + AxisAttributes([c], unit)
  {
    assert [a, b, c][..2] == [a, b] && [a, b][..1] == [a] && [a][..0] == [];
    assert AttributesFor([a], unit) == AxisAttributes([a], unit);
    assert AttributesFor([a, b], unit) == AxisAttributes([a], unit) + AxisAttributes([b], unit);
  }

  /** The three attributes of one axis letter all read the cache under that letter uppercased. */
  lemma AxisAttributeKeys(ax: char, unit: string)
    ensures forall a :: a in AxisAttributes([ax], unit) ==> AttributeKey(a) == Ok(Upper([ax])) == Ok([UpperChar(ax)])
  {
    assert Upper([ax]) == [UpperChar(ax)] by {
      assert |Upper([ax])| == 1 && Upper([ax])[0] == UpperChar(ax);
    }
    assert ("lim_" + [ax])[4] == ax && ("mov_" + [ax])[4] == ax;
  }

  /**
   * Every dynamic attribute reads its cache under one of the six axes the
   * hook queries: X, Y, Z for x, y, z and U, V, W for u, v, w.
   */
  lemma DynamicAttributeKeys()
    ensures forall a :: a in DynamicAttributes() ==> AttributeKey(a).Ok? && AttributeKey(a).value in HexapodAxes
  {
    DynamicAttributeTable();
    AxisAttributeKeys('x', "mm");
    AxisAttributeKeys('y', "mm");
    AxisAttributeKeys('z', "mm");
    AxisAttributeKeys('u', "deg");
    AxisAttributeKeys('v', "deg");
    AxisAttributeKeys('w', "deg");
  }

  /** The attributes one loop makes: each position attribute is named by one of its letters and carries its unit. */
  lemma {:induction false} AttributesForShape(axes: string, unit: string)
    ensures forall a :: a in AttributesFor(axes, unit) ==>
      && (a.kind == Position ==> a.unit == Some(unit) && |a.name| == 1 && a.name[0] in axes)
      && (a.kind != Position ==> a.unit == None)
  {
    if axes != [] {
      var init := axes[..|axes| - 1];
      AttributesForShape(init, unit);
      assert axes == init + [axes[|axes| - 1]];
    }
  }

  /** Position attributes carry "mm" for x, y and z and "deg" for u, v and w; the others carry no unit. */
  lemma DynamicAttributeUnits()
    ensures forall a :: a in DynamicAttributes() && a.kind == Position ==>
      && |a.name| == 1
      && (a.unit == Some("mm") <==> a.name[0] in "xyz")
      && (a.unit == Some("deg") <==> a.name[0] in "uvw")
    ensures forall a :: a in DynamicAttributes() && a.kind != Position ==> a.unit == None
  {
    AttributesForShape("xyz", "mm");
    AttributesForShape("uvw", "deg");
    assert "mm" != "deg";
  }

  /**
   * After a hook whose moving query answered, every attribute's key is in the
   * moving dictionary: `IsMoving(list('XYZUVW'))` covers the attributes made.
   */
  lemma MovingQueryCoversAttributes(link: Link)
    requires IsMovingReply(link, HexapodAxes).Ok?
    ensures IsMovingReply(link, HexapodAxes).value.Keys == {"X", "Y", "Z", "U", "V", "W"}
    ensures forall a :: a in DynamicAttributes() ==> AttributeKey(a).Ok? && AttributeKey(a).value in IsMovingReply(link, HexapodAxes).value
  {
    DynamicAttributeKeys();
  }

  /** The PIHexapod device. */
  class PIHexapod {
    const host: string
    const port: int
    var state: DevState
    var positions: Option<map<string, int>>
    var limits: Option<map<string, bool>>
    var moving: Option<map<string, bool>>
    var lastQuery: real
    var queryTimeout: real
    var attributes: seq<Attr>
    var log: seq<Call>

    /** The state and attributes the hook reads and writes. */
    function Cache(): MotionCache
      reads this
    {
      MotionCache(state, positions, limits, moving, lastQuery)
    }

    constructor(host: string, port: int)
      ensures this.host == host && this.port == port
      ensures Cache() == MotionCache(UNKNOWN, None, None, None, 0.0)
      ensures queryTimeout == 0.0 && attributes == [] && log == []
    {
      this.host, this.port := host, port;
      state := UNKNOWN;
      positions, limits, moving := None, None, None;
      lastQuery, queryTimeout := 0.0, 0.0;
      attributes, log := [], [];
    }

    /**
     * `init_device`: connect and identify. On success the caches are None,
     * `_last_query` is 0 and the timeout 0.1 s, and the state is ON; on a
     * failure the state is OFF and the process exits with status 255.
     */
    method InitDevice(link: Link) returns (exit: Option<int>)
      modifies this
      ensures exit.None? <==> link.connect.Pass? && link.identity.Ok?
      ensures log == old(log) + [ConnectTCPIP(host, port)] + (if link.connect.Pass? then [qIDN] else [])
      ensures exit.None? ==> Cache() == MotionCache(ON, None, None, None, InitialLastQuery) && queryTimeout == QueryTimeout
      ensures exit.Some? ==> exit == Some(255) && state == OFF && queryTimeout == old(queryTimeout)
      ensures exit.Some? ==> positions == old(positions) && limits == old(limits) && moving == old(moving) && lastQuery == old(lastQuery)
      ensures attributes == old(attributes)
    {
      log := log + [ConnectTCPIP(host, port)];
      if link.connect.Fail? {
        state := OFF;
        return Some(255);
      }
      log := log + [qIDN];
      if link.identity.Raise? {
        state := OFF;
        return Some(255);
      }
      positions, limits, moving := None, None, None;
      lastQuery, queryTimeout := InitialLastQuery, QueryTimeout;
      state := ON;
      return None;
    }

    /** `create_axis_attributes`: register `ax`, `lim_ax` and `mov_ax`. */
    method CreateAxisAttributes(ax: string, unit: string)
      modifies this
      ensures attributes == old(attributes) + AxisAttributes(ax, unit)
      ensures Cache() == old(Cache()) && queryTimeout == old(queryTimeout) && log == old(log)
    {
      attributes := attributes + [Attr(ax, Position, Some(unit))];
      attributes := attributes + [Attr("lim_" + ax, LimitSwitch, None)];
      attributes := attributes + [Attr("mov_" + ax, MovingFlag, None)];
    }

    /** `initialize_dynamic_attributes`: the axes x, y, z in mm, then u, v, w in degrees. */
    method InitializeDynamicAttributes()
      modifies this
      ensures attributes == old(attributes) + DynamicAttributes()
      ensures Cache() == old(Cache()) && queryTimeout == old(queryTimeout) && log == old(log)
    {
      var linear, angular := "xyz", "uvw";
      for i := 0 to |linear|
        invariant attributes == old(attributes) + AttributesFor(linear[..i], "mm")
        invariant Cache() == old(Cache()) && queryTimeout == old(queryTimeout) && log == old(log)
      {
        assert linear[..i + 1][..i] == linear[..i];
        CreateAxisAttributes([linear[i]], "mm");
      }
      assert linear[..|linear|] == linear;
      ghost var made := attributes;
      for i := 0 to |angular|
        invariant attributes == made + AttributesFor(angular[..i], "deg")
        invariant Cache() == old(Cache()) && queryTimeout == old(queryTimeout) && log == old(log)
      {
        assert angular[..i + 1][..i] == angular[..i];
        CreateAxisAttributes([angular[i]], "deg");
      }
      assert angular[..|angular|] == angular;
    }

    /** `read_pos`: the cached position under the attribute name uppercased. */
    function ReadPos(name: string): (r: Result<int>)
      reads this
      ensures r.Ok? <==> positions.Some? && Upper(name) in positions.value
      ensures r.Ok? ==> r.value == positions.value[Upper(name)]
    {
      Subscript(positions, PositionKey(name))
    }

    /** `read_limit`: the cached limit switch under the name's last character, uppercased. */
    function ReadLimit(name: string): (r: Result<bool>)
      reads this
      ensures name == [] ==> r == Raise(IndexError)
      ensures r.Ok? <==> name != [] && limits.Some? && [UpperChar(name[|name| - 1])] in limits.value
      ensures r.Ok? ==> r.value == limits.value[[UpperChar(name[|name| - 1])]]
    {
      var key :- SuffixKey(name);
      Subscript(limits, key)
    }

    /** `read_is_moving`: the cached moving flag under the name's last character, uppercased. */
    function ReadIsMoving(name: string): (r: Result<bool>)
      reads this
      ensures name == [] ==> r == Raise(IndexError)
      ensures r.Ok? <==> name != [] && moving.Some? && [UpperChar(name[|name| - 1])] in moving.value
      ensures r.Ok? ==> r.value == moving.value[[UpperChar(name[|name| - 1])]]
    {
      var key :- SuffixKey(name);
      Subscript(moving, key)
    }

    /**
     * `set_pos`: MOV the axis named by the attribute, uppercased, then read
     * the error register; the state becomes MOVING only when it reads 0.
     */
    method SetPos(name: string, target: int, link: Link) returns (r: Outcome)
      modifies this
      ensures var x := MoveAndCheck(link, Upper(name), target);
        && log == old(log) + x.calls
        && r == Status(x.reply)
        && state == (if x.reply == Ok(0) then MOVING else old(state))
      ensures positions == old(positions) && limits == old(limits) && moving == old(moving)
      ensures lastQuery == old(lastQuery) && queryTimeout == old(queryTimeout) && attributes == old(attributes)
    {
      var axis := PositionKey(name);
      log := log + [MOV(axis, target)];
      if link.move(axis, target).Fail? {
        return Fail(link.move(axis, target).error);
      }
      log := log + [qERR];
      if link.errorCode.Raise? {
        return Fail(link.errorCode.error);
      }
      if link.errorCode.value == 0 {
        state := MOVING;
      }
      return Pass;
    }

    /**
     * `always_executed_hook`: when the last query is older than the timeout,
     * re-query positions, limits and the moving flags of X, Y, Z, U, V, W,
     * set MOVING or ON, and stamp the clock; there is no state gate.
     */
    method AlwaysExecutedHook(now: real, link: Link, later: real) returns (r: Outcome)
      modifies this
      ensures var h := MotionHook(old(Cache()), old(queryTimeout), HexapodAxes, link, now, later);
        Cache() == h.cache && log == old(log) + h.calls && r == h.outcome
      ensures queryTimeout == old(queryTimeout) && attributes == old(attributes)
    {
      if now - lastQuery > queryTimeout {
        r := Refresh(link, later);
      } else {
        r := Pass;
      }
    }

    /** The hook's body past its gate: see `MotionRefresh`. */
    method Refresh(link: Link, later: real) returns (r: Outcome)
      modifies this
      ensures var h := MotionRefresh(old(Cache()), HexapodAxes, link, later);
        Cache() == h.cache && log == old(log) + h.calls && r == h.outcome
      ensures queryTimeout == old(queryTimeout) && attributes == old(attributes)
    {
      log := log + [qPOS];
      if link.positions.Raise? {
        return Fail(link.positions.error);
      }
      positions := Some(link.positions.value);
      log := log + [qLIM];
      if link.limits.Raise? {
        return Fail(link.limits.error);
      }
      limits := Some(link.limits.value);
      log := log + [IsMoving(HexapodAxes)];
      var reply := IsMovingReply(link, HexapodAxes);
      if reply.Raise? {
        return Fail(reply.error);
      }
      StoreMoving(reply.value, later);
      return Pass;
    }

    /** The end of the hook: cache the moving flags, MOVING when any is set and ON otherwise, and stamp the clock. */
    method StoreMoving(flags: map<string, bool>, later: real)
      modifies this
      ensures Cache() == old(Cache()).(state := MotionState(flags), moving := Some(flags), lastQuery := later)
      ensures log == old(log) && queryTimeout == old(queryTimeout) && attributes == old(attributes)
    {
      moving := Some(flags);
      state := MotionState(flags);
      lastQuery := later;
    }

    /** `find_references`: ON when every axis reports referenced, FAULT otherwise. */
    method FindReferences(link: Link) returns (r: Outcome)
      modifies this
      ensures var x := ReferenceSearch(link);
        && log == old(log) + x.calls
        && r == Status(x.reply)
        && state == (if x.reply.Ok? then x.reply.value else old(state))
      ensures positions == old(positions) && limits == old(limits) && moving == old(moving)
      ensures lastQuery == old(lastQuery) && queryTimeout == old(queryTimeout) && attributes == old(attributes)
    {
      log := log + [FRF];
      if link.referenceSearch.Fail? {
        return Fail(link.referenceSearch.error);
      }
      log := log + [qFRF];
      if link.referenced.Raise? {
        return Fail(link.referenced.error);
      }
      state := ReferenceState(link.referenced.value);
      return Pass;
    }

    /** `halt`: send HLT with errors suppressed; nothing else changes. */
    method Halt()
      modifies this
      ensures log == old(log) + [HLT]
      ensures Cache() == old(Cache()) && queryTimeout == old(queryTimeout) && attributes == old(attributes)
    {
      log := log + [HLT];
    }
  }
}
