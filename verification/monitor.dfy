/**
 * The plugin object: the registry parsed at start-up, the `room_status`
 * table (with the order its keys were added in, which is the order Python
 * iterates them), and the `anchor_names` cache, updated in place by the
 * polling cycle and by inbound group messages.
 */
module LiveMonitor {
  import opened Options
  import opened Text
  import opened RoomConfigs
  import opened RoomStates
  import opened Notifications
  import opened Engine
  import opened Report

  class Monitor {
    const monitorRooms: seq<RoomConfig>
    var roomStatus: map<string, RoomState>
    var roomOrder: seq<string>
    var anchorNames: map<string, string>

    /** The abstract value of the object. */
    ghost function State(): EngineState
      reads this
    {
      EngineState(roomStatus, roomOrder, anchorNames)
    }

    ghost predicate Valid()
      reads this
    {
      Inv(monitorRooms, State())
    }

    /** Start-up: parse the registry; no room has been observed and no name is cached. */
    constructor (roomConfigs: string)
      ensures Valid()
      ensures monitorRooms == RoomConfigsOf(roomConfigs)
      ensures State() == Initial
    {
      var rooms := ParseRoomConfigs(roomConfigs);
      monitorRooms := rooms;
      roomStatus := map[];
      roomOrder := [];
      anchorNames := map[];
    }

    /**
     * `get_anchor_info`: `fetched` is the result of the name fetch. A name
     * that was fetched is cached and returned; on failure the cache is left
     * alone and the placeholder is returned. The cache is not consulted.
     */
    method GetAnchorInfo(roomId: string, fetched: Option<string>) returns (name: string)
      requires Valid()
      modifies this
      ensures Valid()
      ensures name == AnchorName(roomId, fetched)
      ensures anchorNames == if fetched.Some? then old(anchorNames)[roomId := fetched.value] else old(anchorNames)
      ensures roomStatus == old(roomStatus) && roomOrder == old(roomOrder)
    {
      if fetched.Some? {
        var anchorName := fetched.value;
        anchorNames := anchorNames[roomId := anchorName];
        return anchorName;
      }
      name := FallbackAnchorName(roomId);
    }

    /**
     * The body of the polling loop for one result: `result` is the status
     * fetch for `roomId` (`None` when it failed), `fetched` what the name
     * fetch yields if a change of status calls for it.
     */
    method ProcessResult(roomId: string, result: Option<Sample>, fetched: Option<string>)
      requires Valid()
      modifies this
      ensures Valid()
      ensures State() == Step(monitorRooms, old(State()), roomId, result, fetched)
    {
      StepPreservesInv(monitorRooms, State(), roomId, result, fetched);
      if result.None? {
        return;
      }
      var s := result.value;
      var currentStatus := s.liveStatus;
      var info: RoomState;
      if roomId !in roomStatus {
        // first observation: record the baseline only
        roomOrder := roomOrder + [roomId];
        info := RoomState(currentStatus, None, None, []);
        if currentStatus == LIVE {
          info := info.(liveStartTime := Some(s.liveTime));
        }
      } else {
        info := roomStatus[roomId];
        if currentStatus != info.lastStatus {
          var anchorName := GetAnchorInfo(roomId, fetched);
          var message: string;
          if currentStatus == LIVE {
            info := info.(liveStartTime := Some(s.liveTime));
            message := LiveMessage(anchorName, roomId);
          } else {
            info := info.(liveStartTime := None);
            message := OfflineMessage(anchorName);
          }
          info := info.(lastStatus := currentStatus);
          var targetGroup := ResolveTarget(monitorRooms, roomId);
          if targetGroup.Some? && targetGroup.value != "" {
            info := info.(notifications := info.notifications + [Notification(message, targetGroup.value)]);
          }
        }
      }
      info := info.(lastCheckTime := Some(s.timestamp));
      roomStatus := roomStatus[roomId := info];
    }

    /**
     * One polling cycle: `results[i]` is the status fetch for the i-th
     * configured entry and `fetches[i]` the name fetch for it; the results
     * are applied in entry order.
     */
    method MonitorCycle(results: seq<Option<Sample>>, fetches: seq<Option<string>>)
      requires Valid()
      requires |results| == |monitorRooms| && |fetches| == |monitorRooms|
      modifies this
      ensures Valid()
      ensures State() == Cycle(monitorRooms, old(State()), results, fetches, |monitorRooms|)
    {
      for i := 0 to |results|
        invariant Valid()
        invariant State() == Cycle(monitorRooms, old(State()), results, fetches, i)
      {
        ProcessResult(monitorRooms[i].roomId, results[i], fetches[i]);
      }
    }

    /** The drain on an inbound message from `groupId`, applied to the table in place. */
    method DrainNotifications(groupId: string) returns (sent: seq<string>)
      requires Valid()
      modifies this
      ensures Valid()
      ensures State() == DrainGroup(old(State()), groupId)
      ensures sent == Delivered(old(roomStatus), roomOrder, groupId)
    {
      DrainPreservesInv(monitorRooms, State(), groupId);
      var drained;
      drained, sent := DrainTable(roomStatus, roomOrder, groupId);
      roomStatus := drained;
    }

    /**
     * An inbound message `text` from `groupId`: first the messages waiting
     * for the group, then, for the `liveinfo` command, the report on every
     * entry configured for the group. `current[i]` is the status fetch made
     * for the i-th entry and `now` the current time.
     */
    method OnGroupMessage(groupId: string, text: string, current: seq<Option<Sample>>, now: int, formatTime: int -> string)
      returns (replies: seq<string>)
      requires Valid()
      requires |current| == |monitorRooms|
      modifies this
      ensures Valid()
      ensures State() == DrainGroup(old(State()), groupId)
      ensures replies == Delivered(old(roomStatus), roomOrder, groupId)
        + if IsLiveInfoCommand(text)
          then [CommandReply(ReportsFor(monitorRooms, current, groupId, now, formatTime, roomStatus, anchorNames))]
          else []
    {
      var messageStr := Lower(Strip(text));
      replies := DrainNotifications(groupId);
      assert IsLiveInfoCommand(text) == (messageStr == "liveinfo");
      if messageStr == "liveinfo" {
        var infoLines := CollectReports(monitorRooms, current, groupId, now, formatTime, roomStatus, anchorNames);
        replies := replies + [CommandReply(infoLines)];
      }
    }
  }
}
