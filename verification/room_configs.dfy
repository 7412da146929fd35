/**
 * The room registry: the `room_configs` setting parsed into an ordered list
 * of (room, group) entries, and the lookup that picks the group a room's
 * notifications go to.
 */
module RoomConfigs {
  import opened Options
  import opened Text

  /** One `room_id:group_id` entry of the `room_configs` setting. */
  datatype RoomConfig = RoomConfig(roomId: string, groupId: string)

  /** One token that holds a `:`: split at the first `:` only, both halves stripped. */
  function ParseEntry(token: string): (c: RoomConfig)
    requires ':' in token
    ensures ':' !in c.roomId
  {
    var halves := SplitFirst(token, ':');
    RoomConfig(Strip(halves.0), Strip(halves.1))
  }

  /** The tokens that hold a `:`, in their original order. */
  function ColonTokens(tokens: seq<string>): (ts: seq<string>)
    ensures |ts| <= |tokens|
    ensures forall t :: t in ts ==> ':' in t
  {
    if tokens == [] then []
    else if ':' in tokens[0] then [tokens[0]] + ColonTokens(tokens[1..])
    else ColonTokens(tokens[1..])
  }

  lemma {:induction false} ColonTokensConcat(a: seq<string>, b: seq<string>)
    ensures ColonTokens(a + b) == ColonTokens(a) + ColonTokens(b)
  {
    if a != [] {
      assert (a + b)[0] == a[0] && (a + b)[1..] == a[1..] + b;
      ColonTokensConcat(a[1..], b);
    } else {
      assert a + b == b;
    }
  }

  /** Every token holds a `:`, so none is dropped. */
  lemma {:induction false} ColonTokensAll(tokens: seq<string>)
    requires forall t :: t in tokens ==> ':' in t
    ensures ColonTokens(tokens) == tokens
  {
    if tokens != [] {
      ColonTokensAll(tokens[1..]);
    }
  }

  function Entries(tokens: seq<string>): (rooms: seq<RoomConfig>)
    requires forall t :: t in tokens ==> ':' in t
    ensures |rooms| == |tokens|
  {
    seq(|tokens|, k requires 0 <= k < |tokens| => ParseEntry(tokens[k]))
  }

  lemma EntriesSnoc(tokens: seq<string>, t: string)
    requires forall u :: u in tokens ==> ':' in u
    requires ':' in t
    ensures Entries(tokens + [t]) == Entries(tokens) + [ParseEntry(t)]
  {
  }

  /** What `parse_room_configs` returns for the setting `s`. */
  function RoomConfigsOf(s: string): (rooms: seq<RoomConfig>)
  {
    Entries(ColonTokens(Split(s, ',')))
  }

  /** One more token extends the parsed prefix by its entry, or not at all. */
  lemma {:induction false} ParsePrefixStep(configs: seq<string>, i: nat)
    requires i < |configs|
    ensures ColonTokens(configs[..i + 1]) == ColonTokens(configs[..i]) + ColonTokens([configs[i]])
    ensures ':' in configs[i] ==>
      Entries(ColonTokens(configs[..i + 1])) == Entries(ColonTokens(configs[..i])) + [ParseEntry(configs[i])]
    ensures ':' !in configs[i] ==>
      ColonTokens(configs[..i + 1]) == ColonTokens(configs[..i])
  {
    assert configs[..i + 1] == configs[..i] + [configs[i]];
    ColonTokensConcat(configs[..i], [configs[i]]);
    if ':' in configs[i] {
      assert ColonTokens([configs[i]]) == [configs[i]] by {
        assert [configs[i]][1..] == [];
      }
      EntriesSnoc(ColonTokens(configs[..i]), configs[i]);
    } else {
      assert ColonTokens([configs[i]]) == [] by {
        assert [configs[i]][1..] == [];
      }
    }
  }

  /**
   * The loop of `parse_room_configs`: one entry per comma-separated token
   * that holds a `:`, in input order; tokens without one are skipped.
   */
  method ParseRoomConfigs(roomConfigs: string) returns (rooms: seq<RoomConfig>)
    ensures rooms == RoomConfigsOf(roomConfigs)
  {
    rooms := [];
    var configs := Split(roomConfigs, ',');
    for i := 0 to |configs|
      invariant rooms == Entries(ColonTokens(configs[..i]))
    {
      var config := configs[i];
      ParsePrefixStep(configs, i);
      if ':' in config {
        var halves := SplitFirst(config, ':');
        rooms := rooms + [RoomConfig(Strip(halves.0), Strip(halves.1))];
      }
    }
    assert configs[..|configs|] == configs;
  }

  /** An entry that `room:group` text reproduces exactly. */
  predicate Printable(c: RoomConfig) {
    Separable(c) && Unpadded(c.roomId) && Unpadded(c.groupId)
  }

  /** The room holds neither separator and the group holds no comma. */
  predicate Separable(c: RoomConfig) {
    ':' !in c.roomId && ',' !in c.roomId && ',' !in c.groupId
  }

  /** The `room:group` token of each entry. */
  function EntryTokens(rooms: seq<RoomConfig>): (tokens: seq<string>)
    ensures |tokens| == |rooms|
  {
    seq(|rooms|, k requires 0 <= k < |rooms| => rooms[k].roomId + ":" + rooms[k].groupId)
  }

  /** The `room_configs` text that lists `rooms`: `room:group` tokens joined by commas. */
  function FormatRoomConfigs(rooms: seq<RoomConfig>): string
  {
    Join(EntryTokens(rooms), ',')
  }

  lemma ParseEntryOfFormatted(c: RoomConfig)
    requires Printable(c)
    ensures ParseEntry(c.roomId + ":" + c.groupId) == c
  {
    SplitFirstOfJoined(c.roomId, ':', c.groupId);
    StripUnpadded(c.roomId);
    StripUnpadded(c.groupId);
  }

  lemma EntryTokensWellFormed(rooms: seq<RoomConfig>)
    requires forall c :: c in rooms ==> Separable(c)
    ensures forall t :: t in EntryTokens(rooms) ==> ':' in t && ',' !in t
  {
    var tokens := EntryTokens(rooms);
    forall k | 0 <= k < |tokens| ensures ':' in tokens[k] && ',' !in tokens[k] {
      var c := rooms[k];
      assert c in rooms;
      assert tokens[k] == c.roomId + ":" + c.groupId;
      assert tokens[k][|c.roomId|] == ':';
    }
  }

  lemma ParseEntryTokens(rooms: seq<RoomConfig>)
    requires forall c :: c in rooms ==> Printable(c)
    ensures forall t :: t in EntryTokens(rooms) ==> ':' in t
    ensures Entries(EntryTokens(rooms)) == rooms
  {
    assert forall c :: c in rooms ==> Separable(c);
    EntryTokensWellFormed(rooms);
    forall k | 0 <= k < |rooms| ensures Entries(EntryTokens(rooms))[k] == rooms[k] {
      assert rooms[k] in rooms;
      ParseEntryOfFormatted(rooms[k]);
    }
  }

  /** Parsing the text that lists a registry gives that registry back. */
  lemma ParseFormatRoundTrip(rooms: seq<RoomConfig>)
    requires forall c :: c in rooms ==> Printable(c)
    ensures RoomConfigsOf(FormatRoomConfigs(rooms)) == rooms
  {
    var tokens := EntryTokens(rooms);
    assert forall c :: c in rooms ==> Separable(c);
    EntryTokensWellFormed(rooms);
    ColonTokensAll(tokens);
    RoomConfigsOfJoin(tokens);
    ParseEntryTokens(rooms);
  }

  /** The setting that joins `parts` parses to the entries of its `:` tokens. */
  lemma RoomConfigsOfJoin(parts: seq<string>)
    requires forall t :: t in parts ==> ',' !in t
    ensures RoomConfigsOf(Join(parts, ',')) == Entries(ColonTokens(parts))
  {
    if parts == [] {
      assert Split("", ',') == [""];
      assert ColonTokens([""]) == [];
    } else {
      SplitJoin(parts, ',');
    }
  }

  /** A token without `:` (and without `,`) is skipped and does not affect the other entries. */
  lemma MalformedTokenSkipped(before: seq<string>, bad: string, after: seq<string>)
    requires forall t :: t in before + after ==> ',' !in t
    requires ',' !in bad && ':' !in bad
    ensures RoomConfigsOf(Join(before + [bad] + after, ',')) == RoomConfigsOf(Join(before + after, ','))
  {
    var kept := ColonTokens(before) + ColonTokens(after);
    assert ColonTokens(before + [bad] + after) == kept by {
      ColonTokensConcat(before + [bad], after);
      ColonTokensConcat(before, [bad]);
      assert ColonTokens([bad]) == [];
    }
    assert ColonTokens(before + after) == kept by {
      ColonTokensConcat(before, after);
    }
    calc {
      RoomConfigsOf(Join(before + [bad] + after, ','));
      { RoomConfigsOfJoin(before + [bad] + after); }
      Entries(kept);
      { RoomConfigsOfJoin(before + after); }
      RoomConfigsOf(Join(before + after, ','));
    }
  }

  /**
   * The group of the FIRST entry whose room matches (the loop in the
   * monitor stops at the first match), or nothing when no entry matches.
   */
  function FirstTarget(rooms: seq<RoomConfig>, roomId: string): (t: Option<string>)
    ensures t.None? <==> forall c :: c in rooms ==> c.roomId != roomId
    ensures t.Some? ==> RoomConfig(roomId, t.value) in rooms
  {
    if rooms == [] then None
    else if rooms[0].roomId == roomId then Some(rooms[0].groupId)
    else FirstTarget(rooms[1..], roomId)
  }

  /** Later entries for the same room never override the first one. */
  lemma {:induction false} FirstTargetIsFirstMatch(rooms: seq<RoomConfig>, roomId: string, k: nat)
    requires k < |rooms| && rooms[k].roomId == roomId
    requires forall j :: 0 <= j < k ==> rooms[j].roomId != roomId
    ensures FirstTarget(rooms, roomId) == Some(rooms[k].groupId)
  {
    if k > 0 {
      FirstTargetIsFirstMatch(rooms[1..], roomId, k - 1);
    }
  }

  /** The search loop with `break` that picks a room's target group. */
  method ResolveTarget(rooms: seq<RoomConfig>, roomId: string) returns (target: Option<string>)
    ensures target == FirstTarget(rooms, roomId)
  {
    target := None;
    var i := 0;
    while i < |rooms|
      invariant 0 <= i <= |rooms|
      invariant forall j :: 0 <= j < i ==> rooms[j].roomId != roomId
    {
      if rooms[i].roomId == roomId {
        target := Some(rooms[i].groupId);
        FirstTargetIsFirstMatch(rooms, roomId, i);
        return;
      }
      i := i + 1;
    }
  }
}
