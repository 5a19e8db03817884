/**
 * The throttled refresh shared by the servers, and the device-state
 * derivations of PIHexapod.py and PIGCSController.py, whose hooks cache
 * positions, limit switches and moving flags and derive the device state.
 */
module Polling {
  import opened Python
  import opened Tango
  import opened Gcs

  /** `_last_query` and `_query_timeout` as a successful `init_device` sets them. */
  const InitialLastQuery: real := 0.0
  const QueryTimeout: real := 0.1

  /** The throttle test `(time.time() - self._last_query) > self._query_timeout`. */
  predicate Due(lastQuery: real, timeout: real, now: real) {
    now - lastQuery > timeout
  }

  /** `MOVING if any(moving.values()) else ON`. */
  function MotionState(moving: map<string, bool>): (s: DevState)
    ensures s == MOVING <==> exists a :: a in moving && moving[a]
    ensures s == ON <==> forall a :: a in moving ==> !moving[a]
  {
    if true in moving.Values then MOVING else ON
  }

  /** `ON if all(referenced.values()) else FAULT`. */
  function ReferenceState(referenced: map<string, bool>): (s: DevState)
    ensures s == ON <==> forall a :: a in referenced ==> referenced[a]
    ensures s == FAULT <==> exists a :: a in referenced && !referenced[a]
  {
    if false in referenced.Values then FAULT else ON
  }

  /** A server with no axes reported is referenced, vacuously. */
  lemma NoAxesIsReferenced()
    ensures ReferenceState(map[]) == ON
  {
  }

  /** The device state and the attributes the three-query hook caches. */
  datatype MotionCache = MotionCache(
    state: DevState,
    positions: Option<map<string, int>>,
    limits: Option<map<string, bool>>,
    moving: Option<map<string, bool>>,
    lastQuery: real)

  /** The calls the hook sends, in order: `qPOS()`, `qLIM()`, `IsMoving(axes)`. */
  function MotionQueries(axes: seq<string>): seq<Call> {
    [qPOS, qLIM, IsMoving(axes)]
  }

  /** What a hook leaves behind: the new cache, the calls it sent, and whether it raised. */
  datatype Refresh<C> = Refresh(cache: C, calls: seq<Call>, outcome: Outcome)

  /**
   * The `always_executed_hook` of PIHexapod.py and PIGCSController.py. When
   * the last query is older than the timeout it re-queries positions, limits
   * and moving flags, in that order, then sets the state from the moving flags
   * and stamps the clock reading `later`. A query that raises stops the hook:
   * the attributes assigned before it keep their new values.
   */
  function MotionHook(c: MotionCache, timeout: real, axes: seq<string>, link: Link, now: real, later: real)
    : (r: Refresh<MotionCache>)
    ensures !Due(c.lastQuery, timeout, now) ==> r == Refresh(c, [], Pass)
    ensures r.calls <= MotionQueries(axes)
    ensures var done := Due(c.lastQuery, timeout, now) && link.positions.Ok? && link.limits.Ok? && IsMovingReply(link, axes).Ok?;
      && (r.outcome == Pass <==> !Due(c.lastQuery, timeout, now) || done)
      && r.cache.state == (if done then MotionState(IsMovingReply(link, axes).value) else c.state)
      && r.cache.lastQuery == (if done then later else c.lastQuery)
  {
    if !Due(c.lastQuery, timeout, now) then Refresh(c, [], Pass)
    else MotionRefresh(c, axes, link, later)
  }

  /** The hook past its gate: the three queries, each stored as it answers, then the state and the stamp. */
  function MotionRefresh(c: MotionCache, axes: seq<string>, link: Link, later: real): (r: Refresh<MotionCache>)
    ensures var p := link.positions.Ok?;
      var l := p && link.limits.Ok?;
      var mv := l && IsMovingReply(link, axes).Ok?;
      && (r.outcome == Pass <==> mv)
      && r.cache == MotionCache(
           if mv then MotionState(IsMovingReply(link, axes).value) else c.state,
           if p then Some(link.positions.value) else c.positions,
           if l then Some(link.limits.value) else c.limits,
           if mv then Some(IsMovingReply(link, axes).value) else c.moving,
           if mv then later else c.lastQuery)
      && r.calls == [qPOS] + (if p then [qLIM] else []) + (if l then [IsMoving(axes)] else [])
  {
    if link.positions.Raise? then Refresh(c, [qPOS], Fail(link.positions.error))
    else
      var c := c.(positions := Some(link.positions.value));
      if link.limits.Raise? then Refresh(c, [qPOS, qLIM], Fail(link.limits.error))
      else
        var c := c.(limits := Some(link.limits.value));
        var flags := IsMovingReply(link, axes);
        if flags.Raise? then Refresh(c, MotionQueries(axes), Fail(flags.error))
        else Refresh(c.(state := MotionState(flags.value), moving := Some(flags.value), lastQuery := later),
                     MotionQueries(axes), Pass)
  }

  lemma MotionHookThrottled(c: MotionCache, timeout: real, axes: seq<string>, link: Link, now: real, later: real)
    requires now - c.lastQuery <= timeout
    ensures MotionHook(c, timeout, axes, link, now, later) == Refresh(c, [], Pass)
  {
  }

  /**
   * A refresh in which every query answers replaces the three caches, stamps
   * `later`, and sets MOVING exactly when some axis moves and ON otherwise,
   * whatever the state was before (a FAULT included).
   */
  lemma MotionHookCompletes(c: MotionCache, timeout: real, axes: seq<string>, link: Link, now: real, later: real)
    requires Due(c.lastQuery, timeout, now)
    requires link.positions.Ok? && link.limits.Ok? && IsMovingReply(link, axes).Ok?
    ensures var r := MotionHook(c, timeout, axes, link, now, later);
      && r.outcome == Pass
      && r.calls == [qPOS, qLIM, IsMoving(axes)]
      && r.cache.positions == Some(link.positions.value)
      && r.cache.limits == Some(link.limits.value)
      && r.cache.moving == Some(IsMovingReply(link, axes).value)
      && r.cache.lastQuery == later
      && (r.cache.state == MOVING <==> exists a :: a in axes && link.motion.value[a])
      && (r.cache.state == ON <==> forall a :: a in axes ==> !link.motion.value[a])
  {
    var m := IsMovingReply(link, axes).value;
    assert forall a :: a in axes <==> a in m;
  }

  /**
   * A refresh that raises leaves the state and `_last_query` as they were, so
   * the next access at a later clock reading retries; the caches assigned
   * before the failing query already hold the new answers.
   */
  lemma MotionHookFailsPartway(c: MotionCache, timeout: real, axes: seq<string>, link: Link, now: real, later: real, next: real)
    requires Due(c.lastQuery, timeout, now)
    requires link.positions.Raise? || link.limits.Raise? || IsMovingReply(link, axes).Raise?
    requires now <= next
    ensures var r := MotionHook(c, timeout, axes, link, now, later);
      && r.outcome.Fail?
      && r.cache.state == c.state
      && r.cache.lastQuery == c.lastQuery
      && r.cache.moving == c.moving
      && (r.cache.positions == if link.positions.Ok? then Some(link.positions.value) else c.positions)
      && (r.cache.limits == if link.positions.Ok? && link.limits.Ok? then Some(link.limits.value) else c.limits)
      && Due(r.cache.lastQuery, timeout, next)
  {
  }

  /**
   * `find_references` of PIHexapod.py and PIGCSController.py: `FRF()` runs
   * the reference moves, `qFRF()` reads the referenced flags, and the new
   * state is ON when every axis is referenced and FAULT otherwise. A call
   * that raises leaves no new state.
   */
  function ReferenceSearch(link: Link): (x: Exchange<DevState>)
    ensures x.reply.Ok? <==> link.referenceSearch.Pass? && link.referenced.Ok?
    ensures x.reply.Ok? ==> (x.reply.value == ON <==> forall a :: a in link.referenced.value ==> link.referenced.value[a])
    ensures x.reply.Ok? ==> (x.reply.value == FAULT <==> exists a :: a in link.referenced.value && !link.referenced.value[a])
    ensures x.calls == if link.referenceSearch.Pass? then [FRF, qFRF] else [FRF]
  {
    match link.referenceSearch
    case Fail(e) => Exchange([FRF], Raise(e))
    case Pass =>
      match link.referenced
      case Raise(e) => Exchange([FRF, qFRF], Raise(e))
      case Ok(flags) => Exchange([FRF, qFRF], Ok(ReferenceState(flags)))
  }
}
