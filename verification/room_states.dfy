/**
 * One room's entry in the monitor's `room_status` table and the state
 * machine that folds a successful status sample into it.
 */
module RoomStates {
  import opened Options

  /** The status code the live-status endpoint reports for a room that is broadcasting. */
  const LIVE: int := 1

  /** A successful status fetch: `live_status`, `live_time` and the time the sample was taken. */
  datatype Sample = Sample(liveStatus: int, liveTime: int, timestamp: int)

  /** A message waiting for the next inbound event from its group. */
  datatype Notification = Notification(message: string, groupId: string)

  /**
   * `room_status[room_id]`: the last status seen, when the current broadcast
   * started, when the room was last checked, and the messages waiting to be
   * sent (an absent `notifications` list is the empty sequence).
   */
  datatype RoomState = RoomState(
    lastStatus: int,
    liveStartTime: Option<int>,
    lastCheckTime: Option<int>,
    notifications: seq<Notification>)

  /** The start time is recorded exactly while the last status seen is live. */
  predicate StartTimeConsistent(info: RoomState) {
    info.liveStartTime.Some? <==> info.lastStatus == LIVE
  }

  /** The placeholder used when the anchor's name is unknown. */
  function FallbackAnchorName(roomId: string): string {
    "主播" + roomId
  }

  /** What a name fetch yields for the caller: the fetched name, or the placeholder when it failed. */
  function AnchorName(roomId: string, fetched: Option<string>): (name: string)
  {
    match fetched
    case Some(n) => n
    case None => FallbackAnchorName(roomId)
  }

  /** The cached name of a room's anchor, or the same placeholder when none is cached. */
  function CachedAnchorName(names: map<string, string>, roomId: string): (name: string)
  {
    if roomId in names then names[roomId] else FallbackAnchorName(roomId)
  }

  /** A name fetched and stored in the cache is what later cache lookups return. */
  lemma CachedAgreesWithFetch(names: map<string, string>, roomId: string, fetched: Option<string>)
    ensures var names' := if fetched.Some? then names[roomId := fetched.value] else names;
      fetched.Some? ==> CachedAnchorName(names', roomId) == AnchorName(roomId, fetched)
    ensures roomId !in names ==> CachedAnchorName(names, roomId) == AnchorName(roomId, None)
  {
  }

  /** The web address of a live room. */
  function RoomLink(roomId: string): string {
    "https://live.bilibili.com/" + roomId
  }

  function LiveMessage(anchor: string, roomId: string): string {
    anchor + " 开播了！\n传送门：" + RoomLink(roomId)
  }

  function OfflineMessage(anchor: string): string {
    anchor + " 的直播已结束。"
  }

  /** The message announcing that a room changed to `status`. */
  function TransitionMessage(anchor: string, roomId: string, status: int): (m: string)
    ensures |anchor| < |m| && m[..|anchor|] == anchor
    ensures status == LIVE ==> |m| >= |RoomLink(roomId)| && m[|m| - |RoomLink(roomId)|..] == RoomLink(roomId)
    ensures status == LIVE <==> m != OfflineMessage(anchor)
  {
    if status == LIVE then
      var m := LiveMessage(anchor, roomId);
      assert m[|m| - |RoomLink(roomId)|..] == RoomLink(roomId);
      assert m[|anchor| + 1] == '开' && OfflineMessage(anchor)[|anchor| + 1] == '的';
      m
    else
      OfflineMessage(anchor)
  }

  /** A group that messages can be addressed to: one that exists and is not the empty string. */
  predicate Deliverable(target: Option<string>) {
    target.Some? && target.value != ""
  }

  /** The queue after addressing `message` to `target`: unchanged when there is no usable group. */
  function Deliver(queue: seq<Notification>, target: Option<string>, message: string): (queue': seq<Notification>)
  {
    if Deliverable(target) then queue + [Notification(message, target.value)] else queue
  }

  /** The start time a sample with the given status records. */
  function StartTimeOf(s: Sample): (t: Option<int>)
    ensures t.Some? <==> s.liveStatus == LIVE
  {
    if s.liveStatus == LIVE then Some(s.liveTime) else None
  }

  /**
   * The room's entry after a successful sample. `prior` is its entry before
   * (`None` on the first observation), `anchor` the name used in a message
   * and `target` the group messages are addressed to.
   */
  function Observe(prior: Option<RoomState>, s: Sample, roomId: string, anchor: string, target: Option<string>): (next: RoomState)
    ensures next.lastStatus == s.liveStatus
    ensures next.lastCheckTime == Some(s.timestamp)
    ensures prior.None? || StartTimeConsistent(prior.value) ==> StartTimeConsistent(next)
  {
    match prior
    case None =>
      RoomState(s.liveStatus, StartTimeOf(s), Some(s.timestamp), [])
    case Some(info) =>
      if s.liveStatus == info.lastStatus then
        info.(lastCheckTime := Some(s.timestamp))
      else
        RoomState(s.liveStatus, StartTimeOf(s), Some(s.timestamp),
          Deliver(info.notifications, target, TransitionMessage(anchor, roomId, s.liveStatus)))
  }

  /** A change of status: the room was seen before and the new status differs. */
  predicate IsTransition(prior: Option<RoomState>, s: Sample) {
    prior.Some? && s.liveStatus != prior.value.lastStatus
  }

  /** The first observation records a baseline, with a start time only when live, and queues nothing. */
  lemma FirstObservationIsSilent(s: Sample, roomId: string, anchor: string, target: Option<string>)
    ensures var next := Observe(None, s, roomId, anchor, target);
      && next.notifications == []
      && next.lastStatus == s.liveStatus
      && (next.liveStartTime == if s.liveStatus == LIVE then Some(s.liveTime) else None)
  {
  }

  /** A sample with the status already recorded changes only the last check time. */
  lemma SameStatusTouchesOnlyCheckTime(info: RoomState, s: Sample, roomId: string, anchor: string, target: Option<string>)
    requires s.liveStatus == info.lastStatus
    ensures Observe(Some(info), s, roomId, anchor, target) == info.(lastCheckTime := Some(s.timestamp))
  {
  }

  /**
   * A message is queued exactly when the status changed and the room has a
   * usable group; it is the one matching the new status, appended after the
   * messages already waiting.
   */
  lemma NotifiesIffTransition(info: RoomState, s: Sample, roomId: string, anchor: string, target: Option<string>)
    ensures var next := Observe(Some(info), s, roomId, anchor, target);
      && (|next.notifications| == |info.notifications| + 1 <==> IsTransition(Some(info), s) && Deliverable(target))
      && (|next.notifications| == |info.notifications| <==> !(IsTransition(Some(info), s) && Deliverable(target)))
      && next.notifications[..|info.notifications|] == info.notifications
      && (IsTransition(Some(info), s) && Deliverable(target) ==>
            next.notifications[|info.notifications|] == Notification(TransitionMessage(anchor, roomId, s.liveStatus), target.value))
  {
  }

  /** Going live records the broadcast's start time; going offline clears it. */
  lemma TransitionSetsStartTime(info: RoomState, s: Sample, roomId: string, anchor: string, target: Option<string>)
    requires IsTransition(Some(info), s)
    ensures var next := Observe(Some(info), s, roomId, anchor, target);
      && (s.liveStatus == LIVE ==>
            next.liveStartTime == Some(s.liveTime)
            && TransitionMessage(anchor, roomId, s.liveStatus) == anchor + " 开播了！\n传送门：" + RoomLink(roomId))
      && (s.liveStatus != LIVE ==>
            next.liveStartTime == None
            && TransitionMessage(anchor, roomId, s.liveStatus) == anchor + " 的直播已结束。")
  {
  }
}
