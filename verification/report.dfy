/**
 * The on-demand status report of one room and the reply to the `liveinfo`
 * command. The current time and the formatting of a timestamp as local
 * date and time are parameters.
 */
module Report {
  import opened Options
  import opened Text
  import opened RoomConfigs
  import opened RoomStates

  /** The one-line report when the current status fetch fails. */
  function Unavailable(roomId: string): string {
    "直播间 " + roomId + "：无法获取直播信息"
  }

  /** The reply to `liveinfo` from a group that no room is configured for. */
  const NO_ROOMS_REPLY: string := "该群没有配置监控的直播间"

  /** Two `divmod` steps: whole hours, then minutes and seconds of the remainder. */
  function SplitDuration(d: int): (hms: (int, int, int))
    ensures hms.0 * 3600 + hms.1 * 60 + hms.2 == d
    ensures 0 <= hms.1 < 60 && 0 <= hms.2 < 60
  {
    var hours := d / 3600;
    var remainder := d % 3600;
    (hours, remainder / 60, remainder % 60)
  }

  function DurationText(d: int): string {
    var hms := SplitDuration(d);
    IntToString(hms.0) + "小时" + IntToString(hms.1) + "分钟" + IntToString(hms.2) + "秒"
  }

  function StatusText(status: int): string {
    if status == LIVE then "直播中" else "未开播"
  }

  /** The first three lines: anchor name, room and the freshly fetched status. */
  function Heading(anchor: string, roomId: string, status: int): string {
    "主播: " + anchor + "\n直播间ID: " + roomId + "\n状态: " + StatusText(status) + "\n"
  }

  /** The start-time lines of a live room: start time and elapsed time when recorded, "unknown" otherwise. */
  function StartLines(stored: Option<RoomState>, now: int, formatTime: int -> string): string {
    if stored.Some? && stored.value.liveStartTime.Some? then
      StartedLines(stored.value.liveStartTime.value, now, formatTime)
    else
      UNKNOWN_START
  }

  /** The start time and the time elapsed since it, up to `now`. */
  function StartedLines(start: int, now: int, formatTime: int -> string): string {
    "开播时间: " + formatTime(start) + "\n" + "直播时长: " + DurationText(now - start) + "\n"
  }

  /** The start-time line of a live room whose start time is not recorded. */
  const UNKNOWN_START: string := "开播时间: 未知\n"

  /** The last-check line, when the room has been checked. */
  function CheckLine(stored: Option<RoomState>, formatTime: int -> string): string {
    if stored.Some? && stored.value.lastCheckTime.Some? then
      CheckedLine(stored.value.lastCheckTime.value, formatTime)
    else
      ""
  }

  /** The time of the last successful check. */
  function CheckedLine(checkTime: int, formatTime: int -> string): string {
    "最后检查时间: " + formatTime(checkTime) + "\n"
  }

  function LinkLine(roomId: string): string {
    "直播间链接: 链接1" + roomId
  }

  /**
   * The report on one room: `current` is the result of the status fetch made
   * for it, `now` the current time; the stored state supplies the anchor's
   * cached name, the start time and the last check time.
   */
  function LiveInfo(roomId: string, current: Option<Sample>, now: int, formatTime: int -> string,
                    roomStatus: map<string, RoomState>, anchorNames: map<string, string>): (info: string)
    ensures info == Unavailable(roomId) <==> current.None?
    ensures current.Some? ==>
      var head := Heading(CachedAnchorName(anchorNames, roomId), roomId, current.value.liveStatus);
      var link := LinkLine(roomId);
      |head| + |link| <= |info| && info[..|head|] == head && info[|info| - |link|..] == link
  {
    match current
    case None => Unavailable(roomId)
    case Some(s) =>
      var stored := if roomId in roomStatus then Some(roomStatus[roomId]) else None;
      var head := Heading(CachedAnchorName(anchorNames, roomId), roomId, s.liveStatus);
      var body := (if s.liveStatus == LIVE then StartLines(stored, now, formatTime) else "") + CheckLine(stored, formatTime);
      var info := head + body + LinkLine(roomId);
      assert info[0] == '主' && Unavailable(roomId)[0] == '直';
      assert info[..|head|] == head;
      assert info[|info| - |LinkLine(roomId)|..] == LinkLine(roomId);
      info
  }

  /**
   * The lines of a report built from the stored state. For a live room,
   * the heading is followed by the recorded start time and the time since
   * then, or by "unknown" when no start time is recorded; a room that is
   * not live has no start lines. Every report ends with the last check
   * time, when there is one, and the link.
   */
  lemma LiveInfoLines(roomId: string, s: Sample, now: int, formatTime: int -> string,
                      roomStatus: map<string, RoomState>, anchorNames: map<string, string>)
    ensures var info := LiveInfo(roomId, Some(s), now, formatTime, roomStatus, anchorNames);
      var head := Heading(CachedAnchorName(anchorNames, roomId), roomId, s.liveStatus);
      var checked := if roomId in roomStatus && roomStatus[roomId].lastCheckTime.Some?
        then CheckedLine(roomStatus[roomId].lastCheckTime.value, formatTime) else "";
      var tail := checked + LinkLine(roomId);
      var started := if roomId in roomStatus && roomStatus[roomId].liveStartTime.Some?
        then StartedLines(roomStatus[roomId].liveStartTime.value, now, formatTime) else UNKNOWN_START;
      && (s.liveStatus == LIVE ==> info == head + started + tail)
      && (s.liveStatus != LIVE ==> info == head + tail)
  {
    var stored := if roomId in roomStatus then Some(roomStatus[roomId]) else None;
    var head := Heading(CachedAnchorName(anchorNames, roomId), roomId, s.liveStatus);
    var start := if s.liveStatus == LIVE then StartLines(stored, now, formatTime) else "";
    var check := CheckLine(stored, formatTime);
    var link := LinkLine(roomId);
    assert LiveInfo(roomId, Some(s), now, formatTime, roomStatus, anchorNames) == head + (start + check) + link;
    Regroup(head, start, check, link);
  }

  lemma Regroup(a: string, b: string, c: string, d: string)
    ensures a + (b + c) + d == a + b + (c + d)
  {
  }

  /** The letters of the command word, one for one with their upper-case forms. */
  lemma CommandLetters()
    ensures |"liveinfo"| == 8 && |"LIVEINFO"| == 8
    ensures forall k :: 0 <= k < 8 ==> IsLowerLetter("liveinfo"[k])
    ensures forall k :: 0 <= k < 8 ==> IsUpperOf("LIVEINFO"[k], "liveinfo"[k])
  {
  }

  /**
   * `message_str.strip().lower() == "liveinfo"`: the message, once its
   * surrounding whitespace is removed, is the word `liveinfo` written in
   * any mix of upper and lower case.
   */
  function IsLiveInfoCommand(text: string): (b: bool)
    ensures b <==>
      && |Strip(text)| == 8
      && forall k :: 0 <= k < 8 ==> Strip(text)[k] == "liveinfo"[k] || Strip(text)[k] == "LIVEINFO"[k]
  {
    var t := Strip(text);
    CommandLetters();
    LowerMatches(t, "liveinfo", "LIVEINFO");
    Lower(t) == "liveinfo"
  }

  /** The reports for the entries configured for `groupId` among the first entries, in entry order. */
  function ReportsFor(rooms: seq<RoomConfig>, current: seq<Option<Sample>>, groupId: string, now: int, formatTime: int -> string,
                      roomStatus: map<string, RoomState>, anchorNames: map<string, string>): (lines: seq<string>)
    requires |current| == |rooms|
    ensures |lines| <= |rooms|
    ensures forall line :: line in lines ==>
      exists j :: && 0 <= j < |rooms| && rooms[j].groupId == groupId
                  && line == LiveInfo(rooms[j].roomId, current[j], now, formatTime, roomStatus, anchorNames)
  {
    if rooms == [] then []
    else
      var n := |rooms| - 1;
      ReportsFor(rooms[..n], current[..n], groupId, now, formatTime, roomStatus, anchorNames)
        + if rooms[n].groupId == groupId then [LiveInfo(rooms[n].roomId, current[n], now, formatTime, roomStatus, anchorNames)] else []
  }

  /** The loop of the `liveinfo` command: the report on every entry configured for `groupId`, in entry order. */
  method CollectReports(rooms: seq<RoomConfig>, current: seq<Option<Sample>>, groupId: string, now: int, formatTime: int -> string,
                        roomStatus: map<string, RoomState>, anchorNames: map<string, string>) returns (infoLines: seq<string>)
    requires |current| == |rooms|
    ensures infoLines == ReportsFor(rooms, current, groupId, now, formatTime, roomStatus, anchorNames)
  {
    infoLines := [];
    for i := 0 to |rooms|
      invariant infoLines == ReportsFor(rooms[..i], current[..i], groupId, now, formatTime, roomStatus, anchorNames)
    {
      var roomConfig := rooms[i];
      assert rooms[..i + 1][..i] == rooms[..i] && current[..i + 1][..i] == current[..i];
      if roomConfig.groupId == groupId {
        var roomInfo := LiveInfo(roomConfig.roomId, current[i], now, formatTime, roomStatus, anchorNames);
        infoLines := infoLines + [roomInfo];
      }
    }
    assert rooms[..|rooms|] == rooms && current[..|current|] == current;
  }

  /** Every entry configured for the group gets its report. */
  lemma {:induction false} ReportsForComplete(rooms: seq<RoomConfig>, current: seq<Option<Sample>>, groupId: string, now: int, formatTime: int -> string,
                                              roomStatus: map<string, RoomState>, anchorNames: map<string, string>, j: nat)
    requires |current| == |rooms|
    requires j < |rooms| && rooms[j].groupId == groupId
    ensures LiveInfo(rooms[j].roomId, current[j], now, formatTime, roomStatus, anchorNames)
      in ReportsFor(rooms, current, groupId, now, formatTime, roomStatus, anchorNames)
  {
    var n := |rooms| - 1;
    if j < n {
      ReportsForComplete(rooms[..n], current[..n], groupId, now, formatTime, roomStatus, anchorNames, j);
    }
  }

  /** Reports follow entry order: the reports on the entries before `i` come first, as a prefix. */
  lemma {:induction false} ReportsForPrefix(rooms: seq<RoomConfig>, current: seq<Option<Sample>>, groupId: string, now: int, formatTime: int -> string,
                                            roomStatus: map<string, RoomState>, anchorNames: map<string, string>, i: nat)
    requires |current| == |rooms| && i <= |rooms|
    ensures ReportsFor(rooms[..i], current[..i], groupId, now, formatTime, roomStatus, anchorNames)
      <= ReportsFor(rooms, current, groupId, now, formatTime, roomStatus, anchorNames)
  {
    if i == |rooms| {
      assert rooms[..i] == rooms && current[..i] == current;
    } else {
      var n := |rooms| - 1;
      ReportsForPrefix(rooms[..n], current[..n], groupId, now, formatTime, roomStatus, anchorNames, i);
      assert rooms[..n][..i] == rooms[..i] && current[..n][..i] == current[..i];
    }
  }

  /** The entries configured for `groupId`, in entry order. */
  function ConfiguredFor(rooms: seq<RoomConfig>, groupId: string): (entries: seq<RoomConfig>)
    ensures forall c :: c in entries ==> c in rooms && c.groupId == groupId
  {
    if rooms == [] then []
    else
      var n := |rooms| - 1;
      ConfiguredFor(rooms[..n], groupId) + if rooms[n].groupId == groupId then [rooms[n]] else []
  }

  /** There is one report per entry configured for the group. */
  lemma {:induction false} ReportsForCount(rooms: seq<RoomConfig>, current: seq<Option<Sample>>, groupId: string, now: int, formatTime: int -> string,
                                           roomStatus: map<string, RoomState>, anchorNames: map<string, string>)
    requires |current| == |rooms|
    ensures |ReportsFor(rooms, current, groupId, now, formatTime, roomStatus, anchorNames)| == |ConfiguredFor(rooms, groupId)|
  {
    if rooms != [] {
      var n := |rooms| - 1;
      ReportsForCount(rooms[..n], current[..n], groupId, now, formatTime, roomStatus, anchorNames);
    }
  }

  /** There is a report exactly when some entry is configured for the group. */
  lemma {:induction false} ReportsForEmpty(rooms: seq<RoomConfig>, current: seq<Option<Sample>>, groupId: string, now: int, formatTime: int -> string,
                                           roomStatus: map<string, RoomState>, anchorNames: map<string, string>)
    requires |current| == |rooms|
    ensures ReportsFor(rooms, current, groupId, now, formatTime, roomStatus, anchorNames) == []
      <==> forall c :: c in rooms ==> c.groupId != groupId
  {
    if rooms != [] {
      var n := |rooms| - 1;
      ReportsForEmpty(rooms[..n], current[..n], groupId, now, formatTime, roomStatus, anchorNames);
      assert rooms == rooms[..n] + [rooms[n]];
    }
  }

  /** The reply to `liveinfo`: a title, a rule of 20 `=` and the reports one per line, or the no-rooms reply. */
  function CommandReply(lines: seq<string>): (reply: string)
    ensures reply == NO_ROOMS_REPLY <==> lines == []
    ensures lines != [] ==>
      && |REPLY_TITLE| <= |reply|
      && reply[..|REPLY_TITLE|] == REPLY_TITLE
      && reply[|REPLY_TITLE|..] == Join(lines, '\n')
  {
    if lines != [] then
      var reply := REPLY_TITLE + Join(lines, '\n');
      assert reply[0] == '直' && NO_ROOMS_REPLY[0] == '该';
      reply
    else
      NO_ROOMS_REPLY
  }

  /** The title of the reply: a heading, a blank line and a rule of 20 `=`, with no line break after the rule. */
  const REPLY_TITLE: string := "直播间状态\n\n" + "===================="

  /** The no-rooms reply is given exactly when no entry is configured for the group. */
  lemma NoRoomsReplyIff(rooms: seq<RoomConfig>, current: seq<Option<Sample>>, groupId: string, now: int, formatTime: int -> string,
                        roomStatus: map<string, RoomState>, anchorNames: map<string, string>)
    requires |current| == |rooms|
    ensures CommandReply(ReportsFor(rooms, current, groupId, now, formatTime, roomStatus, anchorNames)) == NO_ROOMS_REPLY
      <==> forall c :: c in rooms ==> c.groupId != groupId
  {
    var lines := ReportsFor(rooms, current, groupId, now, formatTime, roomStatus, anchorNames);
    ReportsForEmpty(rooms, current, groupId, now, formatTime, roomStatus, anchorNames);
  }
}
