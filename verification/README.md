# Bilibili live-room monitor: a verified model of its engine

The plugin watches a configured list of bilibili live rooms. For each room it
polls the live status periodically. It turns every change between "live" and
"not live" into a notification for the chat group configured for that room.
The host only lets the plugin speak when a group sends it a message, so the
notifications wait in per-room queues. The next message from the group takes
out the ones addressed to it. The `liveinfo` command answers with a fresh
status report for every room configured for the sending group.

The model covers the plugin's engine:

- `Text`: the Python string operations the plugin relies on (`strip`, `split`, `split(':', 1)`, `join`, `lower`, `str(int)`).
- `RoomConfigs`: parsing the `room_configs` setting, and the first-match lookup of a room's target group.
- `RoomStates`: one room's `room_status` entry, the state machine that folds a status sample into it, the notification messages, and the anchor-name fallback.
- `Notifications`: the per-room notification lists, and the drain run when a group message arrives.
- `Engine`: the whole state as a value (`room_status` with its key order, `anchor_names`). It defines what one fetch result, one polling cycle and one drain do to that state, and the invariant they keep.
- `Report`: the `get_live_info` report, the `liveinfo` command test and the command's reply.
- `LiveMonitor`: the plugin object as a class. Its fields are the registry, the room table, the table's key order and the name cache. Its methods mirror the plugin's methods and are proved to follow `Engine`.

Status codes are integers. A room is live exactly when its code is 1.
Timestamps are integer seconds.
Every network fetch is a parameter holding its result, with `None` meaning the fetch failed.
The current time is a parameter.
Formatting a timestamp as local date and time is a parameter.

Some of the code's behaviour is easy to mistake, and the model follows the code on each point:

- A room's messages go only to the group of the first registry entry for that room. When that group is the empty string, nothing is queued, even if a later entry for the room names another group.
- `get_anchor_info` never reads the name cache. It stores a name only when the fetch succeeds, and it never stores the placeholder.
- Any code other than 1 counts as "not live". A change from 0 to 2 therefore queues an "ended" message.
- Messages are queued per room, each tagged with its group. The drain walks the rooms in the order they were first observed.
- The `liveinfo` reply puts the rule of 20 `=` directly before the first report, with no line break between them.

## Model

| member | source | states |
|---|---|---|
| `Text.StripStart` | main.py:44-45 | The result is the suffix left after the longest all-whitespace prefix (Python's whitespace set). It does not start with whitespace. |
| `Text.StripEnd` | main.py:44-45 | The result is the prefix left before the longest all-whitespace suffix. It does not end with whitespace. |
| `Text.Strip` | main.py:195 | The result is the part of the text between its leading and its trailing whitespace: for some `i`, it is the slice of the text starting at `i`, and every character before it and after it is whitespace. It neither starts nor ends with whitespace. |
| `Text.StripUnpadded` | main.py:44-45 | Stripping changes a text exactly when the text starts or ends with whitespace. |
| `Text.IndexOf` | main.py:42 | The result is the position of the first occurrence of the character. |
| `Text.SplitFirst` | main.py:42 | `split(sep, 1)` gives a part before the first separator and the rest. Joined around the separator they give back the input, and the first part holds no separator. |
| `Text.Split` | main.py:39 | `split(',')` never returns an empty list. No part holds the separator, and joining the parts gives back the input. |
| `Text.SplitJoin` | main.py:39 | Splitting a join of separator-free parts gives back those parts. |
| `Text.LowerMatches` | main.py:195 | A text lowers to a word of lower-case letters exactly when it has the word's length and each character is the word's letter in lower case or in upper case. |
| `Text.NatToString` | main.py:180 | Decimal formatting gives a non-empty digit string whose value is the number. It has a leading zero only for 0, which is formatted as the single digit `0`. |
| `Text.IntToString` | main.py:180 | A non-negative number becomes digits that denote it, with a leading zero only for 0, which becomes `0`. A negative number becomes a minus sign followed by digits, without a leading zero, that denote its magnitude. |
| `RoomConfigs.ParseEntry` | main.py:41-46 | An entry splits its token at the first `:` and strips both halves. The room id holds no `:`, and the group may hold further `:`s. |
| `RoomConfigs.ParseRoomConfigs` | main.py:36-50 | The loop returns one entry per comma-separated token that holds a `:`, in token order, each parsed by `ParseEntry`. Tokens without a `:` are skipped. |
| `RoomConfigs.ParseFormatRoundTrip` | main.py:36-50 | Parsing the text `room:group,room:group,...` of a registry gives that registry back, when ids hold no separators and have no surrounding whitespace. |
| `RoomConfigs.MalformedTokenSkipped` | main.py:41-49 | Inserting a token without `:` anywhere in the setting leaves the parsed registry unchanged. |
| `RoomConfigs.FirstTarget` | main.py:137-141 | The result is absent exactly when no entry names the room. When present, it is the group of an entry for the room. |
| `RoomConfigs.FirstTargetIsFirstMatch` | main.py:138-141 | The result is the group of the first entry for the room. Later entries for the same room are ignored. |
| `RoomConfigs.ResolveTarget` | main.py:137-141 | The search loop with `break` returns the first matching entry's group, or nothing. |
| `RoomStates.CachedAgreesWithFetch` | main.py:60 | A name that was fetched and cached is what later cache lookups return. For an uncached room, the lookup and a failed fetch give the same placeholder. |
| `RoomStates.TransitionMessage` | main.py:126-132 | A transition message starts with the anchor's name. A message for status 1 ends with the room's address `https://live.bilibili.com/<room>`. The message is the "ended" text exactly when the new status is not 1. |
| `RoomStates.StartTimeOf` | main.py:117-118 | A start time is recorded exactly for status 1. |
| `RoomStates.Observe` | main.py:104-154 | After any successful sample, the last status is the sample's and the last check time is the sample's timestamp. The start-time invariant (a start time is set if and only if the last status is 1) is preserved. |
| `RoomStates.FirstObservationIsSilent` | main.py:115-119 | The first sample records the status and sets a start time only when the status is 1. It queues nothing. |
| `RoomStates.SameStatusTouchesOnlyCheckTime` | main.py:122 | A sample that repeats the stored status changes only the last check time. |
| `RoomStates.NotifiesIffTransition` | main.py:122-150 | For a room already observed, exactly one message is appended when the status changed and the group is usable; otherwise none is. Older messages keep their order, and the appended message is the transition message for the new status. |
| `RoomStates.TransitionSetsStartTime` | main.py:127-134 | On a change to 1, the start time becomes `live_time` and the message is `<anchor> 开播了！\n传送门：https://live.bilibili.com/<room>`. On a change to any other value, the start time is cleared and the message is `<anchor> 的直播已结束。`. |
| `Notifications.Addressed` | main.py:202-203 | Every selected notification is addressed to the group. |
| `Notifications.Keep` | main.py:202-204 | No kept notification is addressed to the group. |
| `Notifications.PartitionConserves` | main.py:198-204 | Selected and kept notifications together are exactly the queue, counted and as a multiset. |
| `Notifications.PartitionConservesMessages` | main.py:198-204 | The messages sent and the messages kept are together the queue's messages, each as often as it was queued. |
| `Notifications.NothingAddressedInKept` | main.py:198-204 | After a drain, nothing addressed to the drained group is left. |
| `Notifications.KeepPreservesOtherGroups` | main.py:202-204 | A drain leaves the messages of every other group exactly as they were. |
| `Notifications.QueuedInOrder` | main.py:147-150 | Messages appended for a group come out of the next drain after the older ones, in the order they were queued. |
| `Notifications.RemoveFirst` | main.py:204 | `list.remove` of an element that is present shortens the list by exactly one. |
| `Notifications.RemoveFirstMultiset` | main.py:204 | `list.remove` takes out one occurrence of the element and nothing else, as a multiset. |
| `Notifications.RemoveFirstAfter` | main.py:201-204 | Removing an element with no earlier equal element removes that very occurrence. So `remove` on each matching element of the copy deletes exactly that element. |
| `Notifications.DrainRoom` | main.py:200-204 | The loop over a copy of one room's list returns the messages addressed to the group, in list order. The live list keeps exactly the others, in order. |
| `Notifications.DrainTable` | main.py:198-204 | The loop over the table returns every message for the group, room by room in table order. Every room is left with only the other groups' messages. |
| `Notifications.Drained` | main.py:198-204 | The drained table has the same rooms. Each room's entry is unchanged except for its queue. No queue holds a message for the drained group, and every other group's messages in each queue are exactly as before. |
| `Notifications.Delivered` | main.py:198-204 | A drain sends nothing exactly when no room's queue holds a message for the group. |
| `Notifications.PendingAfterDrain` | main.py:198-204 | After a drain, the waiting messages are exactly the earlier waiting messages for other groups, in the same order. |
| `Notifications.DrainConserves` | main.py:198-204 | The number of messages sent plus the number still waiting equals the number that were waiting. The same holds for the messages themselves, as multisets. An immediate second drain sends nothing, and the messages waiting for any other group are untouched. |
| `Engine.InitialInv` | main.py:26-27 | The empty start-up state satisfies the invariant. |
| `Engine.StepPreservesInv` | main.py:92-154 | Every fetch result keeps the invariant. The key order lists each observed room once, and each room's start time is set if and only if its status is 1. Each room has a check time. Every waiting message is addressed to the room's first, non-empty configured group. |
| `Engine.CyclePreservesInv` | main.py:86-154 | A whole polling cycle keeps the invariant. |
| `Engine.FailedCycleChangesNothing` | main.py:93-98 | A cycle in which every status fetch failed leaves the state exactly as it was. |
| `Engine.Step` | main.py:97-154 | A failed fetch leaves the state as it was. A successful sample puts its room in the table with the sample's status and check time. The table gains at most that room, the key order only grows at its end, and no cached name is dropped. |
| `Engine.Cycle` | main.py:89-154 | Over a cycle the table loses no room. Every room it gains is one of the cycle's configured entries. The key order only grows at its end, and no cached name is dropped. |
| `Engine.StepFrame` | main.py:100-154 | A successful sample touches only its own room. It sets that room's status and check time. The name cache changes only on a change of status whose name fetch succeeded. |
| `Engine.StepCachesName` | main.py:122-124 | After a change of status whose name fetch succeeded, a later report's lookup of the cache gives the fetched name. A failed fetch, or an unchanged status, leaves that lookup as it was. |
| `Engine.StepQueuesOnTransition` | main.py:122-150 | On an observed room, the queue gains exactly the transition message, naming the fetched name or the placeholder and addressed to the first entry's group. This happens exactly when the status changed and that group is non-empty. |
| `Engine.LiveThenOfflineScenario` | main.py:104-154 | Room 123 going offline, then live, then offline: a silent baseline, then the live message with the start time, then the ended message with the start time cleared. |
| `Engine.DrainPreservesInv` | main.py:198-204 | A drain keeps the invariant. |
| `Report.SplitDuration` | main.py:176-178 | The elapsed time splits into hours, minutes and seconds with `h*3600 + m*60 + s == d`, `0 <= m < 60` and `0 <= s < 60`. |
| `Report.LiveInfo` | main.py:161-190 | The report is the "unavailable" line exactly when the fresh fetch failed. Otherwise it starts with the anchor's cached name (or the placeholder), the room id and the fresh status, and ends with the room link. |
| `Report.LiveInfoLines` | main.py:170-188 | A report on a live room is the heading, then either the recorded start time and the time since it up to `now` (`divmod` into hours, minutes and seconds) or `开播时间: 未知` when no start time is recorded, then the last check time when there is one, then the link. A report on a room that is not live has no start lines. |
| `Report.IsLiveInfoCommand` | main.py:195 | The text lowered here is compared with `liveinfo` at main.py:211. A message is the command exactly when, after stripping, it is 8 characters long and each is the letter of `liveinfo` in lower or upper case. |
| `Report.ReportsFor` | main.py:212-216 | There are no more reports than entries. Every report is the report on an entry configured for the group. |
| `Report.ReportsForComplete` | main.py:212-216 | Every entry configured for the group gets its report. |
| `Report.ReportsForCount` | main.py:212-216 | There is exactly one report per entry configured for the group. |
| `Report.ReportsForPrefix` | main.py:212-216 | Reports follow entry order: the reports on the first `i` entries form a prefix of all the reports. |
| `Report.CollectReports` | main.py:212-216 | The loop over the entries returns the report on each entry configured for the group, in entry order. |
| `Report.ReportsForEmpty` | main.py:212-216 | There is a report exactly when some entry is configured for the group. |
| `Report.CommandReply` | main.py:218-222 | The reply is the no-rooms text exactly when there are no reports. Otherwise it is the title `直播间状态`, a blank line and a rule of 20 `=`, followed directly by the reports joined with line breaks. |
| `Report.NoRoomsReplyIff` | main.py:218-222 | The reply is `该群没有配置监控的直播间` exactly when no entry is configured for the group. |
| `LiveMonitor.Monitor.constructor` | main.py:16-27 | The registry is the parsed setting. No room has been observed and no name is cached. |
| `LiveMonitor.Monitor.GetAnchorInfo` | main.py:52-66 | Returns the fetched name or the placeholder. It caches the name only when the fetch succeeded and leaves the room table alone. |
| `LiveMonitor.Monitor.ProcessResult` | main.py:97-154 | Updating the fields in place gives exactly `Engine.Step`, and the invariant is kept. |
| `LiveMonitor.Monitor.MonitorCycle` | main.py:89-154 | Applying the results in entry order gives exactly `Engine.Cycle`, and the invariant is kept. |
| `LiveMonitor.Monitor.DrainNotifications` | main.py:197-204 | The table becomes its drained form, and the messages for the group are returned in table order. |
| `LiveMonitor.Monitor.OnGroupMessage` | main.py:192-222 | The replies are the drained messages, followed, for the `liveinfo` command, by the command reply built from the reports on the group's entries. |

## Left out

- HTTP: the session, the endpoint URLs, JSON decoding, response codes and timeouts. Each status fetch and name fetch is a parameter holding its result, with `None` for any failure.
- asyncio: `create_task`, `gather`, `sleep` and `check_interval`. A cycle is one sequential pass over the results. The unsynchronised concurrent access by the polling task and the message handler is not modelled.
- Logging, and the `isinstance(result, Exception)` branch: a fetch that raised is the same as a failed fetch (`None`).
- Python exceptions inside a cycle: a missing key, or a `live_time` that `fromtimestamp` rejects, aborts the rest of that cycle in the code. The model assumes well-formed payloads.
- `datetime`: timestamps are integer seconds, `datetime.now()` is the parameter `now`, and `strftime` is the parameter `formatTime`. One `now` serves all reports of one command.
- `Text.Lower`: lowers ASCII letters only. This is exact for the comparison with `liveinfo`, because no other character lowers to one of that word's letters alone.
- The registration decorator, event routing, `yield event.plain_result` (a returned list of replies here), reading the settings, and `terminate`.
- A room entry with a status of `None` exists only between the entry's creation and the first-observation branch that fills it. In the model, a room is in the table exactly when it has a status. An absent `notifications` list is the empty list.
