/**
 * The pull-based notification queue: the per-room `notifications` lists
 * and the drain that, on an inbound message from a group, takes out every
 * message addressed to that group.
 */
module Notifications {
  import opened RoomStates

  /** The notifications addressed to `groupId`, in queue order. */
  function Addressed(queue: seq<Notification>, groupId: string): (r: seq<Notification>)
    ensures |r| <= |queue|
    ensures forall n :: n in r ==> n.groupId == groupId
  {
    if queue == [] then []
    else if queue[0].groupId == groupId then [queue[0]] + Addressed(queue[1..], groupId)
    else Addressed(queue[1..], groupId)
  }

  /** The notifications addressed to any other group, in queue order. */
  function Keep(queue: seq<Notification>, groupId: string): (r: seq<Notification>)
    ensures |r| <= |queue|
    ensures forall n :: n in r ==> n.groupId != groupId
  {
    if queue == [] then []
    else if queue[0].groupId == groupId then Keep(queue[1..], groupId)
    else [queue[0]] + Keep(queue[1..], groupId)
  }

  /** The message texts, in order. */
  function MessagesOf(queue: seq<Notification>): (r: seq<string>)
  {
    seq(|queue|, k requires 0 <= k < |queue| => queue[k].message)
  }

  lemma MessagesOfConcat(a: seq<Notification>, b: seq<Notification>)
    ensures MessagesOf(a + b) == MessagesOf(a) + MessagesOf(b)
  {
  }

  lemma {:induction false} AddressedConcat(a: seq<Notification>, b: seq<Notification>, groupId: string)
    ensures Addressed(a + b, groupId) == Addressed(a, groupId) + Addressed(b, groupId)
  {
    if a == [] {
      assert a + b == b;
    } else {
      assert (a + b)[0] == a[0] && (a + b)[1..] == a[1..] + b;
      AddressedConcat(a[1..], b, groupId);
    }
  }

  lemma {:induction false} KeepConcat(a: seq<Notification>, b: seq<Notification>, groupId: string)
    ensures Keep(a + b, groupId) == Keep(a, groupId) + Keep(b, groupId)
  {
    if a == [] {
      assert a + b == b;
    } else {
      assert (a + b)[0] == a[0] && (a + b)[1..] == a[1..] + b;
      KeepConcat(a[1..], b, groupId);
    }
  }

  /** Every notification goes to exactly one side of the split: none is lost or duplicated. */
  lemma {:induction false} PartitionConserves(queue: seq<Notification>, groupId: string)
    ensures |Addressed(queue, groupId)| + |Keep(queue, groupId)| == |queue|
    ensures multiset(Addressed(queue, groupId)) + multiset(Keep(queue, groupId)) == multiset(queue)
  {
    if queue != [] {
      PartitionConserves(queue[1..], groupId);
      assert queue == [queue[0]] + queue[1..];
    }
  }

  /** What is kept holds nothing addressed to the drained group. */
  lemma {:induction false} NothingAddressedInKept(queue: seq<Notification>, groupId: string)
    ensures Addressed(Keep(queue, groupId), groupId) == []
  {
    if queue != [] {
      NothingAddressedInKept(queue[1..], groupId);
    }
  }

  /** Draining one group leaves the messages of every other group exactly as they were. */
  lemma {:induction false} KeepPreservesOtherGroups(queue: seq<Notification>, groupId: string, other: string)
    requires other != groupId
    ensures Addressed(Keep(queue, groupId), other) == Addressed(queue, other)
  {
    if queue != [] {
      KeepPreservesOtherGroups(queue[1..], groupId, other);
    }
  }

  /** Messages appended for a group come out of a drain after the older ones, in the order they were queued. */
  lemma {:induction false} QueuedInOrder(queue: seq<Notification>, more: seq<Notification>, groupId: string)
    requires forall n :: n in more ==> n.groupId == groupId
    ensures Addressed(queue + more, groupId) == Addressed(queue, groupId) + more
  {
    AddressedConcat(queue, more, groupId);
    AddressedAll(more, groupId);
  }

  lemma {:induction false} AddressedAll(queue: seq<Notification>, groupId: string)
    requires forall n :: n in queue ==> n.groupId == groupId
    ensures Addressed(queue, groupId) == queue
  {
    if queue != [] {
      AddressedAll(queue[1..], groupId);
    }
  }

  /** Python's `list.remove(x)`: the list without the first element equal to `x`. */
  function RemoveFirst(s: seq<Notification>, x: Notification): (r: seq<Notification>)
    requires x in s
    ensures |r| == |s| - 1
  {
    if s[0] == x then s[1..] else [s[0]] + RemoveFirst(s[1..], x)
  }

  /** `list.remove(x)` takes out one occurrence of `x` and nothing else. */
  lemma {:induction false} RemoveFirstMultiset(s: seq<Notification>, x: Notification)
    requires x in s
    ensures multiset(RemoveFirst(s, x)) == multiset(s) - multiset{x}
  {
    assert s == [s[0]] + s[1..];
    if s[0] != x {
      RemoveFirstMultiset(s[1..], x);
    }
  }

  /** Removing an element that does not occur earlier takes out that very occurrence. */
  lemma {:induction false} RemoveFirstAfter(before: seq<Notification>, x: Notification, after: seq<Notification>)
    requires x !in before
    ensures RemoveFirst(before + [x] + after, x) == before + after
  {
    var s := before + [x] + after;
    if before == [] {
      assert s[0] == x && s[1..] == after;
    } else {
      assert s[0] == before[0] != x;
      assert s[1..] == before[1..] + [x] + after;
      RemoveFirstAfter(before[1..], x, after);
      calc {
        RemoveFirst(s, x);
        [s[0]] + RemoveFirst(s[1..], x);
        [before[0]] + (before[1..] + after);
        { assert before == [before[0]] + before[1..]; }
        before + after;
      }
    }
  }

  /** One step of the drain loop over the copy: what has been sent so far. */
  lemma DrainStepSent(queue: seq<Notification>, i: nat, groupId: string)
    requires i < |queue|
    ensures MessagesOf(Addressed(queue[..i + 1], groupId))
      == MessagesOf(Addressed(queue[..i], groupId)) + (if queue[i].groupId == groupId then [queue[i].message] else [])
  {
    assert queue[..i + 1] == queue[..i] + [queue[i]];
    AddressedConcat(queue[..i], [queue[i]], groupId);
    MessagesOfConcat(Addressed(queue[..i], groupId), Addressed([queue[i]], groupId));
  }

  /** One step of the drain loop over the copy: what the live list holds afterwards. */
  lemma DrainStepKept(queue: seq<Notification>, i: nat, groupId: string)
    requires i < |queue|
    ensures queue[i] in Keep(queue[..i], groupId) + queue[i..]
    ensures (if queue[i].groupId == groupId
             then RemoveFirst(Keep(queue[..i], groupId) + queue[i..], queue[i])
             else Keep(queue[..i], groupId) + queue[i..])
      == Keep(queue[..i + 1], groupId) + queue[i + 1..]
  {
    var done := Keep(queue[..i], groupId);
    assert queue[..i + 1] == queue[..i] + [queue[i]];
    assert done + queue[i..] == done + [queue[i]] + queue[i + 1..];
    KeepConcat(queue[..i], [queue[i]], groupId);
    if queue[i].groupId == groupId {
      RemoveFirstAfter(done, queue[i], queue[i + 1..]);
    }
  }

  /**
   * The drain of one room's list: walk a copy of the list, collect the
   * message of every notification addressed to the group and remove that
   * notification from the live list.
   */
  method DrainRoom(queue: seq<Notification>, groupId: string) returns (sent: seq<string>, kept: seq<Notification>)
    ensures sent == MessagesOf(Addressed(queue, groupId))
    ensures kept == Keep(queue, groupId)
  {
    sent := [];
    kept := queue;
    for i := 0 to |queue|
      invariant sent == MessagesOf(Addressed(queue[..i], groupId))
      invariant kept == Keep(queue[..i], groupId) + queue[i..]
    {
      var notification := queue[i];
      DrainStepSent(queue, i, groupId);
      DrainStepKept(queue, i, groupId);
      if notification.groupId == groupId {
        sent := sent + [notification.message];
        kept := RemoveFirst(kept, notification);
      }
    }
    assert queue[..|queue|] == queue;
  }

  /** `order` lists the keys of `rooms` once each: the iteration order of the table. */
  ghost predicate Ordered(rooms: map<string, RoomState>, order: seq<string>) {
    && (forall i, j :: 0 <= i < j < |order| ==> order[i] != order[j])
    && (forall r :: r in order <==> r in rooms)
  }

  /** Every waiting notification, room by room in table order, each room's list in its own order. */
  function PendingIn(rooms: map<string, RoomState>, order: seq<string>): (pending: seq<Notification>)
    requires forall r :: r in order ==> r in rooms
  {
    if order == [] then []
    else PendingIn(rooms, order[..|order| - 1]) + rooms[order[|order| - 1]].notifications
  }

  /** The table after draining `groupId`: every room keeps only the messages for other groups. */
  function Drained(rooms: map<string, RoomState>, groupId: string): (rooms': map<string, RoomState>)
    ensures rooms'.Keys == rooms.Keys
    ensures forall r :: r in rooms' ==> rooms'[r].(notifications := rooms[r].notifications) == rooms[r]
    ensures forall r :: r in rooms' ==> Addressed(rooms'[r].notifications, groupId) == []
    ensures forall r, other :: r in rooms' && other != groupId ==>
      Addressed(rooms'[r].notifications, other) == Addressed(rooms[r].notifications, other)
  {
    var drained := map r | r in rooms :: rooms[r].(notifications := Keep(rooms[r].notifications, groupId));
    assert forall r :: r in drained ==> Addressed(drained[r].notifications, groupId) == [] by {
      forall r | r in drained ensures Addressed(drained[r].notifications, groupId) == [] {
        NothingAddressedInKept(rooms[r].notifications, groupId);
      }
    }
    assert forall r, other :: r in drained && other != groupId ==>
      Addressed(drained[r].notifications, other) == Addressed(rooms[r].notifications, other) by {
      forall r, other | r in drained && other != groupId
        ensures Addressed(drained[r].notifications, other) == Addressed(rooms[r].notifications, other)
      {
        KeepPreservesOtherGroups(rooms[r].notifications, groupId, other);
      }
    }
    drained
  }

  /** The messages a drain of `groupId` sends, in the order it sends them. */
  function Delivered(rooms: map<string, RoomState>, order: seq<string>, groupId: string): (sent: seq<string>)
    requires forall r :: r in order ==> r in rooms
    ensures sent == [] <==> forall k :: 0 <= k < |order| ==> Addressed(rooms[order[k]].notifications, groupId) == []
  {
    PendingAddressedEmpty(rooms, order, groupId);
    MessagesOf(Addressed(PendingIn(rooms, order), groupId))
  }

  /** The waiting messages hold none for the group exactly when no room's queue does. */
  lemma {:induction false} PendingAddressedEmpty(rooms: map<string, RoomState>, order: seq<string>, groupId: string)
    requires forall r :: r in order ==> r in rooms
    ensures Addressed(PendingIn(rooms, order), groupId) == []
      <==> forall k :: 0 <= k < |order| ==> Addressed(rooms[order[k]].notifications, groupId) == []
  {
    if order != [] {
      var n := |order| - 1;
      var front := order[..n];
      var last := Addressed(rooms[order[n]].notifications, groupId);
      PendingAddressedEmpty(rooms, front, groupId);
      AddressedConcat(PendingIn(rooms, front), rooms[order[n]].notifications, groupId);
      assert Addressed(PendingIn(rooms, order), groupId) == Addressed(PendingIn(rooms, front), groupId) + last;
      assert (forall k :: 0 <= k < |order| ==> Addressed(rooms[order[k]].notifications, groupId) == [])
        <==> (forall k :: 0 <= k < n ==> Addressed(rooms[front[k]].notifications, groupId) == []) && last == [] by {
        assert forall k :: 0 <= k < n ==> front[k] == order[k];
      }
    }
  }

  /** Draining one more room of the table order appends that room's messages for the group. */
  lemma DeliveredStep(rooms: map<string, RoomState>, order: seq<string>, i: nat, groupId: string)
    requires i < |order| && forall r :: r in order ==> r in rooms
    ensures Delivered(rooms, order[..i + 1], groupId)
      == Delivered(rooms, order[..i], groupId) + MessagesOf(Addressed(rooms[order[i]].notifications, groupId))
  {
    assert order[..i + 1][..i] == order[..i];
    AddressedConcat(PendingIn(rooms, order[..i]), rooms[order[i]].notifications, groupId);
    MessagesOfConcat(Addressed(PendingIn(rooms, order[..i]), groupId), Addressed(rooms[order[i]].notifications, groupId));
  }

  /** The first `i` rooms of the table order are drained, the others are as they were. */
  ghost predicate DrainedUpTo(current: map<string, RoomState>, rooms: map<string, RoomState>, order: seq<string>, i: nat, groupId: string)
    requires i <= |order| && Ordered(rooms, order)
  {
    && current.Keys == rooms.Keys
    && (forall k :: 0 <= k < i ==> current[order[k]] == Drained(rooms, groupId)[order[k]])
    && (forall k :: i <= k < |order| ==> current[order[k]] == rooms[order[k]])
  }

  lemma DrainedUpToStep(current: map<string, RoomState>, rooms: map<string, RoomState>, order: seq<string>, i: nat, groupId: string)
    requires i < |order| && Ordered(rooms, order)
    requires DrainedUpTo(current, rooms, order, i, groupId)
    ensures current[order[i]] == rooms[order[i]]
    ensures var info := current[order[i]];
      DrainedUpTo(current[order[i] := info.(notifications := Keep(info.notifications, groupId))], rooms, order, i + 1, groupId)
  {
  }

  lemma DrainedUpToEnd(current: map<string, RoomState>, rooms: map<string, RoomState>, order: seq<string>, groupId: string)
    requires Ordered(rooms, order)
    requires DrainedUpTo(current, rooms, order, |order|, groupId)
    ensures current == Drained(rooms, groupId)
  {
    forall r | r in current ensures current[r] == Drained(rooms, groupId)[r] {
      var k :| 0 <= k < |order| && order[k] == r;
    }
  }

  /**
   * The drain loop of an inbound message from `groupId` over the whole
   * table: every room in table order gives up the messages addressed to
   * the group, which are returned in the order they are taken out.
   */
  method DrainTable(rooms: map<string, RoomState>, order: seq<string>, groupId: string)
    returns (rooms': map<string, RoomState>, sent: seq<string>)
    requires Ordered(rooms, order)
    ensures rooms' == Drained(rooms, groupId)
    ensures sent == Delivered(rooms, order, groupId)
  {
    rooms' := rooms;
    sent := [];
    for i := 0 to |order|
      invariant DrainedUpTo(rooms', rooms, order, i, groupId)
      invariant sent == Delivered(rooms, order[..i], groupId)
    {
      var roomId := order[i];
      var roomInfo := rooms'[roomId];
      DeliveredStep(rooms, order, i, groupId);
      DrainedUpToStep(rooms', rooms, order, i, groupId);
      var delivered, kept := DrainRoom(roomInfo.notifications, groupId);
      rooms' := rooms'[roomId := roomInfo.(notifications := kept)];
      sent := sent + delivered;
    }
    assert order[..|order|] == order;
    DrainedUpToEnd(rooms', rooms, order, groupId);
  }

  /** After a drain, what is still waiting is exactly what was waiting for the other groups, in the same order. */
  lemma {:induction false} PendingAfterDrain(rooms: map<string, RoomState>, order: seq<string>, groupId: string)
    requires forall r :: r in order ==> r in rooms
    ensures PendingIn(Drained(rooms, groupId), order) == Keep(PendingIn(rooms, order), groupId)
  {
    if order != [] {
      var last := order[|order| - 1];
      PendingAfterDrain(rooms, order[..|order| - 1], groupId);
      KeepConcat(PendingIn(rooms, order[..|order| - 1]), rooms[last].notifications, groupId);
    }
  }

  /** Sent and kept messages together are the queue's messages, each as often as it was queued. */
  lemma {:induction false} PartitionConservesMessages(queue: seq<Notification>, groupId: string)
    ensures multiset(MessagesOf(Addressed(queue, groupId))) + multiset(MessagesOf(Keep(queue, groupId)))
      == multiset(MessagesOf(queue))
  {
    if queue != [] {
      var rest := queue[1..];
      PartitionConservesMessages(rest, groupId);
      assert queue == [queue[0]] + rest;
      MessagesOfConcat([queue[0]], rest);
      if queue[0].groupId == groupId {
        MessagesOfConcat([queue[0]], Addressed(rest, groupId));
      } else {
        MessagesOfConcat([queue[0]], Keep(rest, groupId));
      }
    }
  }

  /**
   * A drain of `groupId` conserves messages: what it sends plus what stays
   * queued is what was queued; an immediate second drain sends nothing; and
   * the messages waiting for any other group are untouched.
   */
  lemma DrainConserves(rooms: map<string, RoomState>, order: seq<string>, groupId: string, other: string)
    requires forall r :: r in order ==> r in rooms
    ensures |Delivered(rooms, order, groupId)| + |PendingIn(Drained(rooms, groupId), order)| == |PendingIn(rooms, order)|
    ensures multiset(Delivered(rooms, order, groupId)) + multiset(MessagesOf(PendingIn(Drained(rooms, groupId), order)))
      == multiset(MessagesOf(PendingIn(rooms, order)))
    ensures Delivered(Drained(rooms, groupId), order, groupId) == []
    ensures other != groupId ==> Delivered(Drained(rooms, groupId), order, other) == Delivered(rooms, order, other)
  {
    var pending := PendingIn(rooms, order);
    PendingAfterDrain(rooms, order, groupId);
    PartitionConserves(pending, groupId);
    PartitionConservesMessages(pending, groupId);
    NothingAddressedInKept(pending, groupId);
    if other != groupId {
      KeepPreservesOtherGroups(pending, groupId, other);
    }
  }
}
