/**
 * The monitor's whole state as a value, and what one status result, one
 * polling cycle and one drain do to it. The class in `LiveMonitor` is
 * proved to follow these functions step by step.
 */
module Engine {
  import opened Options
  import opened RoomConfigs
  import opened RoomStates
  import opened Notifications

  /** `room_status` (with its key order), and the `anchor_names` cache. */
  datatype EngineState = EngineState(
    roomStatus: map<string, RoomState>,
    roomOrder: seq<string>,
    anchorNames: map<string, string>)

  /** The monitor before its first cycle. */
  const Initial := EngineState(map[], [], map[])

  /** A room's entry, or `None` when the room has not been observed yet. */
  function Prior(roomStatus: map<string, RoomState>, roomId: string): (prior: Option<RoomState>)
  {
    if roomId in roomStatus then Some(roomStatus[roomId]) else None
  }

  /**
   * The state after the result of one status fetch for `roomId`. A failed
   * fetch (`None`) changes nothing. `fetched` is what the anchor-name fetch
   * yields if the sample is a change of status (only then is it made).
   */
  function Step(rooms: seq<RoomConfig>, e: EngineState, roomId: string, result: Option<Sample>, fetched: Option<string>): (e': EngineState)
    ensures result.None? ==> e' == e
    ensures result.Some? ==>
      && roomId in e'.roomStatus
      && e'.roomStatus[roomId].lastStatus == result.value.liveStatus
      && e'.roomStatus[roomId].lastCheckTime == Some(result.value.timestamp)
    ensures e'.roomStatus.Keys == e.roomStatus.Keys + (if result.Some? then {roomId} else {})
    ensures e.roomOrder <= e'.roomOrder && e.anchorNames.Keys <= e'.anchorNames.Keys
  {
    match result
    case None => e
    case Some(s) =>
      var prior := Prior(e.roomStatus, roomId);
      EngineState(
        e.roomStatus[roomId := Observe(prior, s, roomId, AnchorName(roomId, fetched), FirstTarget(rooms, roomId))],
        if prior.None? then e.roomOrder + [roomId] else e.roomOrder,
        if IsTransition(prior, s) && fetched.Some? then e.anchorNames[roomId := fetched.value] else e.anchorNames)
  }

  /** One polling cycle: the results of the fetches for the first `n` configured entries, in entry order. */
  function Cycle(rooms: seq<RoomConfig>, e: EngineState, results: seq<Option<Sample>>, fetches: seq<Option<string>>, n: nat): (e': EngineState)
    requires |results| == |rooms| && |fetches| == |rooms| && n <= |rooms|
    ensures e.roomStatus.Keys <= e'.roomStatus.Keys
    ensures forall r :: r in e'.roomStatus && r !in e.roomStatus ==> exists k :: 0 <= k < n && rooms[k].roomId == r
    ensures e.roomOrder <= e'.roomOrder && e.anchorNames.Keys <= e'.anchorNames.Keys
  {
    if n == 0 then e
    else Step(rooms, Cycle(rooms, e, results, fetches, n - 1), rooms[n - 1].roomId, results[n - 1], fetches[n - 1])
  }

  /** The state after a drain of `groupId`. */
  function DrainGroup(e: EngineState, groupId: string): (e': EngineState)
  {
    e.(roomStatus := Drained(e.roomStatus, groupId))
  }

  /**
   * A room's entry is well formed: its start time is recorded exactly while
   * it is live, it has been checked, and every waiting message is addressed
   * to the room's first configured group, which is not empty.
   */
  ghost predicate RoomValid(rooms: seq<RoomConfig>, roomId: string, info: RoomState) {
    && StartTimeConsistent(info)
    && info.lastCheckTime.Some?
    && forall n :: n in info.notifications ==>
         Deliverable(FirstTarget(rooms, roomId)) && n.groupId == FirstTarget(rooms, roomId).value
  }

  ghost predicate Inv(rooms: seq<RoomConfig>, e: EngineState) {
    && Ordered(e.roomStatus, e.roomOrder)
    && forall r :: r in e.roomStatus ==> RoomValid(rooms, r, e.roomStatus[r])
  }

  lemma InitialInv(rooms: seq<RoomConfig>)
    ensures Inv(rooms, Initial)
  {
  }

  lemma ObservePreservesRoomValid(rooms: seq<RoomConfig>, roomId: string, prior: Option<RoomState>, s: Sample, anchor: string)
    requires prior.Some? ==> RoomValid(rooms, roomId, prior.value)
    ensures RoomValid(rooms, roomId, Observe(prior, s, roomId, anchor, FirstTarget(rooms, roomId)))
  {
  }

  /** Appending a key not yet in the table keeps the order a list of its keys, once each. */
  lemma OrderedAppend(rs: map<string, RoomState>, order: seq<string>, roomId: string, info: RoomState)
    requires Ordered(rs, order) && roomId !in rs
    ensures Ordered(rs[roomId := info], order + [roomId])
  {
    var order' := order + [roomId];
    forall i, j | 0 <= i < j < |order'| ensures order'[i] != order'[j] {
      if j == |order| {
        assert order'[i] == order[i] && order[i] in order;
      } else {
        assert order'[i] == order[i] && order'[j] == order[j];
      }
    }
  }

  /** Every result keeps the state well formed. */
  lemma StepPreservesInv(rooms: seq<RoomConfig>, e: EngineState, roomId: string, result: Option<Sample>, fetched: Option<string>)
    requires Inv(rooms, e)
    ensures Inv(rooms, Step(rooms, e, roomId, result, fetched))
  {
    if result.Some? {
      var prior := Prior(e.roomStatus, roomId);
      var next := Observe(prior, result.value, roomId, AnchorName(roomId, fetched), FirstTarget(rooms, roomId));
      ObservePreservesRoomValid(rooms, roomId, prior, result.value, AnchorName(roomId, fetched));
      if prior.None? {
        OrderedAppend(e.roomStatus, e.roomOrder, roomId, next);
      }
    }
  }

  /** A whole cycle keeps the state well formed. */
  lemma {:induction false} CyclePreservesInv(rooms: seq<RoomConfig>, e: EngineState, results: seq<Option<Sample>>, fetches: seq<Option<string>>, n: nat)
    requires |results| == |rooms| && |fetches| == |rooms| && n <= |rooms|
    requires Inv(rooms, e)
    ensures Inv(rooms, Cycle(rooms, e, results, fetches, n))
  {
    if n > 0 {
      CyclePreservesInv(rooms, e, results, fetches, n - 1);
      StepPreservesInv(rooms, Cycle(rooms, e, results, fetches, n - 1), rooms[n - 1].roomId, results[n - 1], fetches[n - 1]);
    }
  }

  /** A cycle in which every fetch failed leaves the state exactly as it was. */
  lemma {:induction false} FailedCycleChangesNothing(rooms: seq<RoomConfig>, e: EngineState, results: seq<Option<Sample>>, fetches: seq<Option<string>>, n: nat)
    requires |results| == |rooms| && |fetches| == |rooms| && n <= |rooms|
    requires forall k :: 0 <= k < n ==> results[k].None?
    ensures Cycle(rooms, e, results, fetches, n) == e
  {
    if n > 0 {
      FailedCycleChangesNothing(rooms, e, results, fetches, n - 1);
    }
  }

  /**
   * One result for `roomId`: other rooms and their queues are untouched,
   * the room's last check time becomes the sample's, and the anchor cache
   * only gains a name on a change of status whose name fetch succeeded.
   */
  lemma StepFrame(rooms: seq<RoomConfig>, e: EngineState, roomId: string, s: Sample, fetched: Option<string>)
    ensures var e' := Step(rooms, e, roomId, Some(s), fetched);
      && e'.roomStatus.Keys == e.roomStatus.Keys + {roomId}
      && (forall r :: r in e.roomStatus && r != roomId ==> e'.roomStatus[r] == e.roomStatus[r])
      && e'.roomStatus[roomId].lastStatus == s.liveStatus
      && e'.roomStatus[roomId].lastCheckTime == Some(s.timestamp)
      && (e'.anchorNames != e.anchorNames ==> IsTransition(Prior(e.roomStatus, roomId), s) && fetched.Some?)
  {
  }

  /**
   * The name a later report shows: after a change of status whose name
   * fetch succeeded, the cache lookup of the report gives the fetched name;
   * when the fetch failed, or the status did not change, the lookup gives
   * what it gave before.
   */
  lemma StepCachesName(rooms: seq<RoomConfig>, e: EngineState, roomId: string, s: Sample, fetched: Option<string>)
    requires roomId in e.roomStatus
    ensures var names' := Step(rooms, e, roomId, Some(s), fetched).anchorNames;
      && (s.liveStatus != e.roomStatus[roomId].lastStatus && fetched.Some? ==>
            CachedAnchorName(names', roomId) == fetched.value)
      && (s.liveStatus == e.roomStatus[roomId].lastStatus || fetched.None? ==>
            CachedAnchorName(names', roomId) == CachedAnchorName(e.anchorNames, roomId))
  {
  }

  /**
   * On a room already observed, one message is appended to its queue
   * exactly when the status changed and its first configured group is
   * usable; that message names the anchor (the fetched name or the
   * placeholder) and is addressed to that group.
   */
  lemma StepQueuesOnTransition(rooms: seq<RoomConfig>, e: EngineState, roomId: string, s: Sample, fetched: Option<string>)
    requires roomId in e.roomStatus
    ensures var before := e.roomStatus[roomId].notifications;
      var after := Step(rooms, e, roomId, Some(s), fetched).roomStatus[roomId].notifications;
      var target := FirstTarget(rooms, roomId);
      after == if s.liveStatus != e.roomStatus[roomId].lastStatus && Deliverable(target)
               then before + [Notification(TransitionMessage(AnchorName(roomId, fetched), roomId, s.liveStatus), target.value)]
               else before
  {
  }

  /**
   * Room 123 configured for group 42: offline, then live from 1700000000,
   * then offline again. The first sample is a silent baseline, the second
   * records the start time and queues the live message, the third clears the
   * start time and queues the offline message; the name fetch fails, so the
   * placeholder name is used.
   */
  lemma LiveThenOfflineScenario()
    ensures var rooms := [RoomConfig("123", "42")];
      var e1 := Step(rooms, Initial, "123", Some(Sample(0, 0, 10)), None);
      var e2 := Step(rooms, e1, "123", Some(Sample(1, 1700000000, 20)), None);
      var e3 := Step(rooms, e2, "123", Some(Sample(0, 1700000000, 30)), None);
      var live := Notification(LiveMessage(FallbackAnchorName("123"), "123"), "42");
      var offline := Notification(OfflineMessage(FallbackAnchorName("123")), "42");
      && e1.roomStatus["123"] == RoomState(0, None, Some(10), [])
      && e2.roomStatus["123"] == RoomState(1, Some(1700000000), Some(20), [live])
      && e3.roomStatus["123"] == RoomState(0, None, Some(30), [live, offline])
      && e3.roomOrder == ["123"]
  {
    var rooms := [RoomConfig("123", "42")];
    assert FirstTarget(rooms, "123") == Some("42");
    var live := Notification(LiveMessage(FallbackAnchorName("123"), "123"), "42");
    var offline := Notification(OfflineMessage(FallbackAnchorName("123")), "42");
    var e1 := Step(rooms, Initial, "123", Some(Sample(0, 0, 10)), None);
    assert e1.roomStatus["123"] == RoomState(0, None, Some(10), []);
    var e2 := Step(rooms, e1, "123", Some(Sample(1, 1700000000, 20)), None);
    assert e2.roomStatus["123"] == RoomState(1, Some(1700000000), Some(20), [live]);
    var e3 := Step(rooms, e2, "123", Some(Sample(0, 1700000000, 30)), None);
    assert e3.roomStatus["123"] == RoomState(0, None, Some(30), [live, offline]);
  }

  /** A drain keeps the state well formed. */
  lemma DrainPreservesInv(rooms: seq<RoomConfig>, e: EngineState, groupId: string)
    requires Inv(rooms, e)
    ensures Inv(rooms, DrainGroup(e, groupId))
  {
    var e' := DrainGroup(e, groupId);
    forall r | r in e'.roomStatus ensures RoomValid(rooms, r, e'.roomStatus[r]) {
      KeepSubset(e.roomStatus[r].notifications, groupId);
    }
  }

  lemma {:induction false} KeepSubset(queue: seq<Notification>, groupId: string)
    ensures forall n :: n in Keep(queue, groupId) ==> n in queue
  {
    if queue != [] {
      KeepSubset(queue[1..], groupId);
    }
  }
}
