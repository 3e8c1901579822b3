/** The setup state machine driven by the per-tick handler: a key press starts
    or cancels setup, a first accepted sneak highlights the block under the
    player, a second accepted sneak confirms it and yields the route from that
    block. Sneaks closer than the debounce interval to the last accepted one
    are ignored. */
module Setup {
  import opened Route

  datatype Option<T> = None | Some(value: T)

  /** Minimum time, in milliseconds, between two accepted sneaks. */
  const DebounceMillis: int := 500

  /** The four module-level variables of the handler; an absent highlighted
      block stands for null. */
  datatype State = State(
    isSettingLocation: bool,
    waitingForConfirmation: bool,
    highlightedBlock: Option<Point>,
    lastSneakTime: int)

  /** What the handler reads from the host in one tick: whether the setup key
      was pressed, whether the player sneaks, the clock in milliseconds, the
      player's position already floored to integers, and whether writing the
      waypoint file would return normally (when it throws, the handler is left
      before it resets the setup state). */
  datatype Reading = Reading(
    keyPressed: bool, sneaking: bool, now: int, x: int, y: int, z: int, exported: bool)

  /** The state after a tick and the waypoints written out, if any. */
  datatype Outcome = Outcome(state: State, saved: Option<seq<Segment>>)

  /** The values the variables hold when the script loads. */
  const Initial: State := State(false, false, None, 0)

  /** Waiting for confirmation only happens during setup, and a block is
      highlighted exactly while waiting for confirmation. */
  predicate Consistent(s: State) {
    && (s.waitingForConfirmation ==> s.isSettingLocation)
    && (s.highlightedBlock.Some? <==> s.waitingForConfirmation)
  }

  predicate Active(s: State) {
    s.isSettingLocation || s.waitingForConfirmation
  }

  predicate Idle(s: State) {
    !s.isSettingLocation && !s.waitingForConfirmation && s.highlightedBlock == None
  }

  /** The key handling: a press during setup cancels it, a press while idle
      starts it; without a press nothing changes. */
  function HandleKey(s: State, keyPressed: bool): (r: State)
    ensures Consistent(s) ==> Consistent(r)
    ensures r.lastSneakTime == s.lastSneakTime
    ensures keyPressed && Active(s) ==> Idle(r)
    ensures keyPressed && !Active(s) ==>
      r.isSettingLocation && r.waitingForConfirmation == s.waitingForConfirmation
      && r.highlightedBlock == s.highlightedBlock
    ensures !keyPressed ==> r == s
  {
    if !keyPressed then s
    else if s.isSettingLocation || s.waitingForConfirmation then
      s.(isSettingLocation := false, waitingForConfirmation := false, highlightedBlock := None)
    else
      s.(isSettingLocation := true)
  }

  /** The sneak handling, run after the key handling in the same tick. */
  function HandleSneak(s: State, sneaking: bool, now: int, x: int, y: int, z: int, exported: bool)
    : (r: Outcome)
    requires Consistent(s)
    ensures Consistent(r.state)
    // outside setup, without a sneak, or within the debounce interval: no effect
    ensures !s.isSettingLocation || !sneaking || now - s.lastSneakTime < DebounceMillis ==>
      r == Outcome(s, None)
    // an accepted sneak records its time
    ensures s.isSettingLocation && sneaking && now - s.lastSneakTime >= DebounceMillis ==>
      r.state.lastSneakTime == now
    // the first accepted sneak highlights the block below the player
    ensures s.isSettingLocation && !s.waitingForConfirmation && sneaking
            && now - s.lastSneakTime >= DebounceMillis ==>
      r.state.waitingForConfirmation && r.state.highlightedBlock == Some(Point(x, y - 1, z))
      && r.saved == None
    // the second accepted sneak ends setup and yields the route from that block
    ensures s.waitingForConfirmation && sneaking && now - s.lastSneakTime >= DebounceMillis
            && exported ==>
      Idle(r.state) && r.saved == Some(Waypoints(RouteOffsets, s.highlightedBlock.value))
    // when writing the file throws, only the sneak time has changed: the block
    // stays highlighted and the next accepted sneak tries again
    ensures s.waitingForConfirmation && sneaking && now - s.lastSneakTime >= DebounceMillis
            && !exported ==>
      r == Outcome(s.(lastSneakTime := now), None)
  {
    if !(s.isSettingLocation && sneaking) || now - s.lastSneakTime < DebounceMillis then
      Outcome(s, None)
    else
      var s' := s.(lastSneakTime := now);
      if s.waitingForConfirmation && !exported then
        Outcome(s', None)
      else if s.waitingForConfirmation then
        var block := s.highlightedBlock.value;
        Outcome(s'.(isSettingLocation := false, waitingForConfirmation := false, highlightedBlock := None),
                Some(Waypoints(RouteOffsets, block)))
      else
        Outcome(s'.(highlightedBlock := Some(Point(x, y - 1, z)), waitingForConfirmation := true), None)
  }

  /** One tick of the handler. */
  function Step(s: State, input: Reading): (r: Outcome)
    requires Consistent(s)
    ensures Consistent(r.state)
    // the debounce never suppresses the key: a press during setup always cancels
    // it, with no sneak handling after, and a press while idle always starts it
    ensures input.keyPressed && Active(s) ==>
      r == Outcome(State(false, false, None, s.lastSneakTime), None)
    ensures input.keyPressed && !Active(s) ==> r.state.isSettingLocation && r.saved == None
    // the time of the last accepted sneak only moves forward, and only on a sneak
    ensures r.state.lastSneakTime == s.lastSneakTime
            || (input.sneaking && r.state.lastSneakTime == input.now
                && input.now >= s.lastSneakTime + DebounceMillis)
    // waypoints come out only when confirming the block highlighted before
    ensures r.saved.Some? ==>
      s.waitingForConfirmation && input.exported && Idle(r.state)
      && r.saved.value == Waypoints(RouteOffsets, s.highlightedBlock.value)
  {
    var k := HandleKey(s, input.keyPressed);
    HandleSneak(k, input.sneaking, input.now, input.x, input.y, input.z, input.exported)
  }

  /** The state after a sequence of ticks. */
  function Run(s: State, ins: seq<Reading>): (r: State)
    requires Consistent(s)
    ensures Consistent(r)
    ensures r.lastSneakTime >= s.lastSneakTime
    decreases |ins|
  {
    if ins == [] then s else Run(Step(s, ins[0]).state, ins[1..])
  }

  /** Ticks without a key press whose sneaks all fall within the debounce
      interval of the last accepted sneak leave the whole state unchanged,
      however many of them there are. */
  lemma {:induction false} DebouncedRunChangesNothing(s: State, ins: seq<Reading>)
    requires Consistent(s)
    requires forall i :: 0 <= i < |ins| ==>
      !ins[i].keyPressed && (ins[i].sneaking ==> ins[i].now - s.lastSneakTime < DebounceMillis)
    ensures Run(s, ins) == s
  {
    if ins != [] {
      assert Step(s, ins[0]).state == s;
      DebouncedRunChangesNothing(s, ins[1..]);
    }
  }

  /** Two sneaks after a block was highlighted: the second one collapses into
      the first when it comes less than 500 ms later, and otherwise confirms. */
  lemma ConfirmAfterDebounce(s: State, t1: int, t2: int, x: int, y: int, z: int)
    requires Consistent(s) && s.isSettingLocation && !s.waitingForConfirmation
    requires t1 - s.lastSneakTime >= DebounceMillis
    ensures var first := Step(s, Reading(false, true, t1, x, y, z, true));
            var second := Step(first.state, Reading(false, true, t2, x, y, z, true));
            && first.saved == None
            && first.state.highlightedBlock == Some(Point(x, y - 1, z))
            && (t2 - t1 < DebounceMillis ==> second == Outcome(first.state, None))
            && (t2 - t1 >= DebounceMillis ==>
                  second.state == State(false, false, None, t2)
                  && second.saved == Some(Waypoints(RouteOffsets, Point(x, y - 1, z))))
  {
  }

  /** A whole setup from idle: the key press and the first sneak in one tick,
      the confirming sneak in a later one, with the player somewhere else.
      The saved route is a closed loop of 21 segments starting at the block
      below the player's first position. */
  lemma SetupFromIdle(s: State, t1: int, t2: int, x: int, y: int, z: int, x': int, y': int, z': int)
    requires Idle(s)
    requires t1 - s.lastSneakTime >= DebounceMillis && t2 - t1 >= DebounceMillis
    ensures var first := Step(s, Reading(true, true, t1, x, y, z, true));
            var second := Step(first.state, Reading(false, true, t2, x', y', z', true));
            && second.state == State(false, false, None, t2)
            && second.saved.Some?
            && second.saved.value == Waypoints(RouteOffsets, Point(x, y - 1, z))
            && |second.saved.value| == 21
            && second.saved.value[0].Start() == Point(x, y - 1, z)
            && second.saved.value[20].End() == Point(x, y - 1, z)
  {
    RouteReturnsToStart(Point(x, y - 1, z));
  }

  /** A confirmation whose file write throws leaves the block highlighted; a
      later accepted sneak whose write succeeds saves the route from that same
      block, wherever the player stands by then. */
  lemma FailedExportRetries(s: State, t1: int, t2: int, x: int, y: int, z: int)
    requires Consistent(s) && s.waitingForConfirmation
    requires t1 - s.lastSneakTime >= DebounceMillis && t2 - t1 >= DebounceMillis
    ensures var failed := Step(s, Reading(false, true, t1, x, y, z, false));
            var retried := Step(failed.state, Reading(false, true, t2, x, y, z, true));
            && failed.saved == None
            && failed.state == s.(lastSneakTime := t1)
            && retried.state == State(false, false, None, t2)
            && retried.saved == Some(Waypoints(RouteOffsets, s.highlightedBlock.value))
  {
  }

  /** The handler's module-level variables. */
  class SetupSession {
    var isSettingLocation: bool
    var waitingForConfirmation: bool
    var highlightedBlock: Option<Point>
    var lastSneakTime: int

    function Snapshot(): State
      reads this
    {
      State(isSettingLocation, waitingForConfirmation, highlightedBlock, lastSneakTime)
    }

    constructor ()
      ensures Snapshot() == Initial
      ensures Consistent(Snapshot())
    {
      isSettingLocation := false;
      waitingForConfirmation := false;
      highlightedBlock := None;
      lastSneakTime := 0;
    }

    /** The tick handler: key handling first, then sneak handling. Returns the
        waypoints written out when the block is confirmed. `exported` says
        whether the file write returns normally; when it throws, the handler
        is left before the reset. */
    method Tick(keyPressed: bool, sneaking: bool, now: int, x: int, y: int, z: int, exported: bool)
      returns (saved: Option<seq<Segment>>)
      requires Consistent(Snapshot())
      modifies this
      ensures Consistent(Snapshot())
      ensures Outcome(Snapshot(), saved)
              == Step(old(Snapshot()), Reading(keyPressed, sneaking, now, x, y, z, exported))
    {
      if keyPressed {
        if isSettingLocation || waitingForConfirmation {
          isSettingLocation := false;
          waitingForConfirmation := false;
          highlightedBlock := None;
        } else {
          isSettingLocation := true;
        }
      }

      ghost var k := HandleKey(old(Snapshot()), keyPressed);
      assert Snapshot() == k;

      saved := None;
      if isSettingLocation && sneaking {
        if now - lastSneakTime < DebounceMillis {
          return;
        }
        lastSneakTime := now;

        if waitingForConfirmation {
          var block := highlightedBlock.value;
          var waypoints := CalculateWaypoints(block.x, block.y, block.z);
          assert block == k.highlightedBlock.value;
          if !exported {
            return;
          }
          saved := Some(waypoints);
          isSettingLocation := false;
          waitingForConfirmation := false;
          highlightedBlock := None;
        } else {
          highlightedBlock := Some(Point(x, y - 1, z));
          waitingForConfirmation := true;
        }
      }
    }
  }
}
