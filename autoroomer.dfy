/**
 * The auto-room lifecycle of src/cogs/autoroomer.py.
 *
 * The cog keeps two tables: `room_states` (room id to its record) and the
 * per-channel lock table. The event handlers run one after another: the lock
 * objects are kept only as entries of the lock table, with no locking
 * behaviour. Each handler is a method of `Autoroomer` proved equal to a
 * specification function over the platform world, the values of the records
 * and the keys of the lock table; the lifecycle rules are lemmas about those
 * functions.
 *
 * A handler "raises" when `channel.edit` fails outside any `try` block
 * (lines 70 and 143): the error reaches the `except` of
 * `on_voice_state_update` and the joining side of that event is skipped.
 */
module Autoroomer {
  import opened Wrappers
  import opened Platform
  import opened Func

  /** The configuration the cog reads; category ids may be missing (`None`). */
  datatype Config = Config(
    textChannelId: int,
    voice1: int,
    voice2: int,
    voice3: int,
    categoryFilled: Option<int>,
    categoryFind: Option<int>,
    categoryCreateRoom: Option<int>)

  /** Python truthiness of an optional id: present and non-zero. */
  predicate Truthy(id: Option<int>)
  {
    id.Some? && id.value != 0
  }

  /** The check of `__init__`: all three category ids are truthy. */
  predicate ConfigOk(c: Config)
  {
    Truthy(c.categoryFilled) && Truthy(c.categoryFind) && Truthy(c.categoryCreateRoom)
  }

  /** `channel_limits`: a dict literal, so a repeated trigger id keeps its last capacity. */
  function ChannelLimits(c: Config): (m: map<int, nat>)
    ensures m.Keys == {c.voice1, c.voice2, c.voice3}
    ensures m[c.voice3] == 4
    ensures c.voice2 != c.voice3 ==> m[c.voice2] == 3
    ensures c.voice1 != c.voice2 && c.voice1 != c.voice3 ==> m[c.voice1] == 2
  {
    map[c.voice1 := 2][c.voice2 := 3][c.voice3 := 4]
  }

  /** `category_id in [category_filled, category_find]`. */
  predicate IsRoomCategory(c: Config, category: Option<int>)
  {
    category == c.categoryFilled || category == c.categoryFind
  }

  /** What a handler leaves behind: the world, the record values, the lock keys, and whether it raised. */
  datatype Effect = Effect(world: World, rooms: map<int, Room>, locks: set<int>, raised: bool)

  // ---------------------------------------------------------------------------
  // Specification functions, one per step of the handlers
  // ---------------------------------------------------------------------------

  /**
   * The `try` blocks that delete the tracked message (lines 75-84 and 131-140):
   * fetch it and delete it when there is a message id; every error is swallowed.
   */
  function DeleteAnnouncementSpec(w: World, messageId: Option<int>): (w': World)
    ensures w'.channels == w.channels && w'.nextId == w.nextId
  {
    if messageId.None? then w
    else
      var fetch := FetchMessage(w, messageId.value);
      if fetch.1.Success? then DeleteMessage(fetch.0, messageId.value).0 else fetch.0
  }

  /**
   * The `try` blocks that refresh the announcement (lines 97-106 and 147-156):
   * update the roster of the fetched message, or create a new announcement
   * when there is no message id or the message is gone.
   */
  function RefreshSpec(w: World, chId: int, room: Room): (r: (World, Room))
    requires chId in w.channels
    ensures r.0.channels == w.channels
  {
    if room.messageId.None? then CreateMessageSpec(w, chId, room)
    else
      var fetch := FetchMessage(w, room.messageId.value);
      if fetch.1.Success? then
        (UpdateParticipantsSpec(fetch.0, fetch.0.channels[chId], room, room.messageId.value, fetch.1.value), room)
      else if fetch.1.error == NotFound then CreateMessageSpec(fetch.0, chId, room)
      else (fetch.0, room)
  }

  /**
   * `_handle_before_channel` on a tracked room (lines 62-106): the new world,
   * the record's new value, and whether `channel.edit` raised. A room left
   * empty has its message and channel deleted.
   */
  function LeaveRoomSpec(c: Config, w: World, chId: int, room: Room): (r: (World, Room, bool))
    requires chId in w.channels
  {
    var ch := w.channels[chId];
    var reopen := ch.category == c.categoryFilled && |ch.members| < ch.userLimit;
    var edit := if reopen then EditCategory(w, chId, GetCategory(w, c.categoryFind)) else (w, Pass);
    if edit.1.Fail? then (edit.0, room, true)
    else if |ch.members| == 0 then
      (DeleteChannel(DeleteAnnouncementSpec(edit.0, room.messageId), chId).0, room, false)
    else
      var posted := if reopen then CreateMessageSpec(edit.0, chId, room) else (edit.0, room);
      var refreshed := RefreshSpec(posted.0, chId, posted.1);
      (refreshed.0, refreshed.1, false)
  }

  /** The record only changes when the room survives the leaving side. */
  lemma LeaveRoomKeepsRecordUnlessRefreshed(c: Config, w: World, chId: int, room: Room)
    requires chId in w.channels
    ensures var r := LeaveRoomSpec(c, w, chId, room);
      r.2 || |w.channels[chId].members| == 0 ==> r.1 == room
  {
  }

  /** `_handle_before_channel`: a member left the voice channel `chId`. */
  function BeforeChannelSpec(c: Config, w: World, rooms: map<int, Room>, locks: set<int>, chId: int): (e: Effect)
    requires chId in rooms ==> chId in w.channels
  {
    var locks1 := locks + {chId};
    if chId !in rooms then Effect(w, rooms, locks1, false)
    else
      var r := LeaveRoomSpec(c, w, chId, rooms[chId]);
      if !r.2 && |w.channels[chId].members| == 0 then Effect(r.0, rooms - {chId}, locks1 - {chId}, false)
      else Effect(r.0, rooms[chId := r.1], locks1, r.2)
  }

  /**
   * `_handle_after_channel` on a tracked room (lines 127-156): a room that
   * reaches its limit loses its announcement and moves to the filled
   * category; otherwise the announcement is created or refreshed.
   */
  function JoinRoomSpec(c: Config, w: World, chId: int, room: Room): (r: (World, Room, bool))
    requires chId in w.channels
  {
    var ch := w.channels[chId];
    if ch.category != c.categoryFilled && |ch.members| == ch.userLimit then
      var w1 := DeleteAnnouncementSpec(w, room.messageId);
      var filled := GetCategory(w1, c.categoryFilled);
      if filled.Some? then
        var edit := EditCategory(w1, chId, filled);
        (edit.0, room, edit.1.Fail?)
      else (w1, room, false)
    else if room.value == 0 then
      var posted := CreateMessageSpec(w, chId, room);
      (posted.0, posted.1, false)
    else if room.value == 1 then
      var refreshed := RefreshSpec(w, chId, room);
      (refreshed.0, refreshed.1, false)
    else (w, room, false)
  }

  /**
   * The trigger branch of `_handle_after_channel` (lines 123-126): a new room,
   * then an announcement for the trigger channel when it is itself a room.
   */
  function OpenRoomSpec(c: Config, w: World, rooms: map<int, Room>, chId: int, userLimit: nat, member: int)
    : (r: (World, map<int, Room>))
    requires chId in w.channels
  {
    var created := CreateRoomSpec(w, rooms, c.categoryFind, userLimit, member);
    if chId in created.1 then
      var posted := CreateMessageSpec(created.0, chId, created.1[chId]);
      (posted.0, created.1[chId := posted.1])
    else created
  }

  /** `_handle_after_channel`: `member` joined the voice channel `chId`. */
  function AfterChannelSpec(c: Config, w: World, rooms: map<int, Room>, locks: set<int>, chId: int, member: int)
    : (e: Effect)
    requires chId in w.channels
  {
    var locks1 := locks + {chId};
    var ch := w.channels[chId];
    var limits := ChannelLimits(c);
    if ch.category == c.categoryCreateRoom && chId in limits then
      var made := OpenRoomSpec(c, w, rooms, chId, limits[chId], member);
      Effect(made.0, made.1, locks1, false)
    else if IsRoomCategory(c, ch.category) && chId in rooms then
      var r := JoinRoomSpec(c, w, chId, rooms[chId]);
      Effect(r.0, rooms[chId := r.1], locks1, r.2)
    else Effect(w, rooms, locks1, false)
  }

  /** What the platform guarantees about a voice-state event: the channels exist and `member` is in `after`. */
  predicate EventOk(w: World, member: int, before: Option<int>, after: Option<int>)
  {
    && (before.Some? ==> before.value in w.channels)
    && (after.Some? ==> after.value in w.channels && member in w.channels[after.value].members)
  }

  /** The leaving side of `on_voice_state_update` (line 174): only a room category is handled. */
  function LeaveSideSpec(c: Config, w: World, rooms: map<int, Room>, locks: set<int>, before: Option<int>): Effect
    requires before.Some? ==> before.value in w.channels
  {
    if before.Some? && IsRoomCategory(c, w.channels[before.value].category)
    then BeforeChannelSpec(c, w, rooms, locks, before.value)
    else Effect(w, rooms, locks, false)
  }

  /** `on_voice_state_update`: the leaving side, then (unless it raised) the joining side. */
  function VoiceStateUpdateSpec(c: Config, w: World, rooms: map<int, Room>, locks: set<int>,
                                member: int, before: Option<int>, after: Option<int>): Effect
    requires EventOk(w, member, before, after)
  {
    if c.textChannelId !in w.textChannels then Effect(w, rooms, locks, false)
    else
      var e1 := LeaveSideSpec(c, w, rooms, locks, before);
      if e1.raised || after.None? then e1
      else
        LeaveSideKeepsTarget(c, w, rooms, locks, member, before, after);
        AfterChannelSpec(c, e1.world, e1.rooms, e1.locks, after.value, member)
  }

  /** The status of a tracked room in the find category (lines 200-212). */
  function StatusRoomSpec(w: World, chId: int, room: Room, status: Option<string>): (r: (World, Room))
    requires chId in w.channels
  {
    if room.messageId.None? then CreateMessageSpec(w, chId, room)
    else
      var fetch := FetchMessage(w, room.messageId.value);
      if fetch.1.Success? then
        var room1 := room.(comment := if status.Some? then status.value else "");
        (UpdateCommentSpec(fetch.0, room1, room.messageId.value, fetch.1.value), room1)
      else if fetch.1.error == NotFound then CreateMessageSpec(fetch.0, chId, room)
      else (fetch.0, room)
  }

  /** `on_voice_channel_status_update`; an id that is not a voice channel of the world is ignored. */
  function StatusUpdateSpec(c: Config, w: World, rooms: map<int, Room>, locks: set<int>,
                            chId: int, status: Option<string>): (e: Effect)
  {
    if chId !in w.channels || c.textChannelId !in w.textChannels then Effect(w, rooms, locks, false)
    else if chId in rooms && w.channels[chId].category == c.categoryFind then
      var r := StatusRoomSpec(w, chId, rooms[chId], status);
      Effect(r.0, rooms[chId := r.1], locks + {chId}, false)
    else Effect(w, rooms, locks + {chId}, false)
  }

  // ---------------------------------------------------------------------------
  // Properties of the handlers
  // ---------------------------------------------------------------------------

  /** The invariant of a record: phase 0 or 1, and a message id only in phase 1. */
  ghost predicate RecordOk(room: Room)
  {
    (room.value == 0 || room.value == 1) && Coupled(room)
  }

  /** Every record of the table keeps the invariant. */
  ghost predicate TableOk(rooms: map<int, Room>)
  {
    forall k | k in rooms :: RecordOk(rooms[k])
  }

  /** The deletion blocks remove the tracked message exactly when it is fetched and the delete goes through. */
  lemma DeleteAnnouncementEffect(w: World, messageId: Option<int>)
    ensures messageId.None? ==> DeleteAnnouncementSpec(w, messageId) == w
    ensures messageId.Some? ==>
      DeleteAnnouncementSpec(w, messageId).messages
        == if Fault(w).None? && messageId.value in w.messages && Fault(Tick(w)).None?
           then w.messages - {messageId.value} else w.messages
  {
  }

  /** Refreshing keeps the owner, the comment and the invariant, and never drops a message id. */
  lemma RefreshKeepsRecord(w: World, chId: int, room: Room)
    requires chId in w.channels
    ensures var r := RefreshSpec(w, chId, room);
      && r.1.ownerId == room.ownerId && r.1.comment == room.comment
      && (r.1 == room || r.1.value == 1)
      && (room.messageId.Some? ==> r.1.messageId.Some?)
      && (RecordOk(room) ==> RecordOk(r.1))
  {
  }

  /**
   * What the refresh does to the announcement: a fetched message gets its
   * roster field replaced by the current roster and nothing else; a record
   * without a message id, or whose message is gone, is announced anew; any
   * other fetch error leaves everything but the call count alone.
   */
  lemma RefreshEffect(w: World, chId: int, room: Room)
    requires chId in w.channels
    ensures var r := RefreshSpec(w, chId, room);
      var ch := w.channels[chId];
      && (room.messageId.None? ==> r == CreateMessageSpec(w, chId, room))
      && (room.messageId.Some? ==>
           var id := room.messageId.value;
           var fetch := FetchMessage(w, id);
           && (fetch.1 == Failure(NotFound) ==> r == CreateMessageSpec(Tick(w), chId, room))
           && (fetch.1.Failure? && fetch.1.error != NotFound ==> r == (Tick(w), room))
           && (fetch.1.Success? ==>
                && r.1 == room && r.0.channels == w.channels && r.0.nextId == w.nextId
                && r.0.messages
                     == if Fault(Tick(w)).None? && |w.messages[id].fields| > 0
                        then w.messages[id := Embed(w.messages[id].fields[0 := RosterField(Roster(ch.userLimit, ch.members, room.ownerId))])]
                        else w.messages))
  {
  }

  /** A fault-free refresh of an announcement laid out by the bot shows the current roster and keeps the comment. */
  lemma RefreshRewritesRoster(w: World, chId: int, room: Room, roster: seq<Line>, comment: string)
    requires chId in w.channels && w.faults == map[]
    requires room.messageId.Some? && room.messageId.value in w.messages
    requires w.messages[room.messageId.value] == AnnouncementEmbed(roster, comment)
    ensures var r := RefreshSpec(w, chId, room);
      r.0.messages[room.messageId.value] == AnnouncementEmbed(Roster(w.channels[chId].userLimit,
                                                                     w.channels[chId].members, room.ownerId), comment)
  {
    RefreshEffect(w, chId, room);
  }

  /** The leaving side changes no membership and deletes at most its own channel, and only an empty one. */
  lemma BeforeChannelKeepsChannels(c: Config, w: World, rooms: map<int, Room>, locks: set<int>, chId: int)
    requires chId in rooms ==> chId in w.channels
    ensures var e := BeforeChannelSpec(c, w, rooms, locks, chId);
      && (e.world.channels.Keys == w.channels.Keys
          || (chId in rooms && |w.channels[chId].members| == 0
              && e.world.channels.Keys == w.channels.Keys - {chId}))
      && (forall k | k in e.world.channels :: e.world.channels[k].members == w.channels[k].members)
  {
    if chId in rooms {
      var ch := w.channels[chId];
      var room := rooms[chId];
      var reopen := ch.category == c.categoryFilled && |ch.members| < ch.userLimit;
      var edit := if reopen then EditCategory(w, chId, GetCategory(w, c.categoryFind)) else (w, Pass);
      assert edit.0.channels.Keys == w.channels.Keys;
      assert forall k | k in edit.0.channels :: edit.0.channels[k].members == w.channels[k].members;
    }
  }

  /** The channel a member joins survives the leaving side of the same event. */
  lemma LeaveSideKeepsTarget(c: Config, w: World, rooms: map<int, Room>, locks: set<int>,
                             member: int, before: Option<int>, after: Option<int>)
    requires EventOk(w, member, before, after) && after.Some?
    ensures after.value in LeaveSideSpec(c, w, rooms, locks, before).world.channels
  {
    if before.Some? && IsRoomCategory(c, w.channels[before.value].category) {
      BeforeChannelKeepsChannels(c, w, rooms, locks, before.value);
      assert member in w.channels[after.value].members;
    }
  }

  /** Leaving an untracked channel changes nothing but the lock table. */
  lemma LeaveUntracked(c: Config, w: World, rooms: map<int, Room>, locks: set<int>, chId: int)
    requires chId !in rooms
    ensures BeforeChannelSpec(c, w, rooms, locks, chId) == Effect(w, rooms, locks + {chId}, false)
  {
  }

  /** After leaving an untracked channel, the joining side of the same event still runs on the unchanged state. */
  lemma LeaveUntrackedThenJoin(c: Config, w: World, rooms: map<int, Room>, locks: set<int>,
                               member: int, before: Option<int>, after: Option<int>)
    requires EventOk(w, member, before, after) && c.textChannelId in w.textChannels
    requires before.Some? && before.value !in rooms && after.Some?
    ensures VoiceStateUpdateSpec(c, w, rooms, locks, member, before, after)
         == AfterChannelSpec(c, w, rooms,
              if IsRoomCategory(c, w.channels[before.value].category) then locks + {before.value} else locks,
              after.value, member)
  {
  }

  /**
   * Leaving a filled room below its limit moves it to the find category; the
   * move raising stops the handler, and with members left the room ends in
   * phase 1 with a message id as soon as the announcement could be sent.
   * Without failures a new announcement is posted and tracked, and the
   * refresh that follows it leaves it as posted.
   */
  lemma LeaveFilledReopens(c: Config, w: World, rooms: map<int, Room>, locks: set<int>, chId: int)
    requires chId in rooms && chId in w.channels
    requires w.channels[chId].category == c.categoryFilled
    requires |w.channels[chId].members| < w.channels[chId].userLimit
    ensures var e := BeforeChannelSpec(c, w, rooms, locks, chId);
      && (e.raised <==> Fault(w).Some?)
      && (e.raised ==> e == Effect(Tick(w), rooms, locks + {chId}, true))
      && (!e.raised && |w.channels[chId].members| > 0 ==>
           && e.world.channels[chId].category == GetCategory(w, c.categoryFind)
           && chId in e.rooms && e.rooms[chId].value == 1
           && (Fault(Tick(w)).None? && Fault(Tick(Tick(w))).None? ==> e.rooms[chId].messageId.Some?))
      && (w.faults == map[] && |w.channels[chId].members| > 0 ==>
           && e.rooms[chId].messageId == Some(w.nextId)
           && w.nextId in e.world.messages
           && e.world.messages[w.nextId] == AnnouncementFor(w.channels[chId], rooms[chId]))
  {
    var ch := w.channels[chId];
    if Fault(w).None? && |ch.members| > 0 {
      var edit := EditCategory(w, chId, GetCategory(w, c.categoryFind));
      var posted := CreateMessageSpec(edit.0, chId, rooms[chId]);
      RefreshKeepsRecord(posted.0, chId, posted.1);
    }
  }

  /**
   * A room left empty loses its record and its lock whatever the message
   * deletion does; only a failed move out of the filled category, which raises
   * first, keeps them. The channel deletion is attempted whatever the message
   * deletion did, and the channel is gone exactly when that call succeeds.
   */
  lemma LeaveEmptyTearsDown(c: Config, w: World, rooms: map<int, Room>, locks: set<int>, chId: int)
    requires chId in rooms && chId in w.channels && |w.channels[chId].members| == 0
    ensures var e := BeforeChannelSpec(c, w, rooms, locks, chId);
      && (e.raised <==> w.channels[chId].category == c.categoryFilled && 0 < w.channels[chId].userLimit
                        && Fault(w).Some?)
      && (!e.raised ==> e.rooms == rooms - {chId} && e.locks == locks - {chId})
      && (!e.raised ==>
           var ch := w.channels[chId];
           var w1 := if ch.category == c.categoryFilled && 0 < ch.userLimit then Tick(w) else w;
           (chId !in e.world.channels <==> Fault(DeleteAnnouncementSpec(w1, rooms[chId].messageId)).None?))
  {
  }

  /** Without platform failures, the teardown deletes the message and the channel. */
  lemma LeaveEmptyFaultFree(c: Config, w: World, rooms: map<int, Room>, locks: set<int>, chId: int)
    requires chId in rooms && chId in w.channels && |w.channels[chId].members| == 0 && w.faults == map[]
    ensures var e := BeforeChannelSpec(c, w, rooms, locks, chId);
      && !e.raised && chId !in e.world.channels && chId !in e.rooms && chId !in e.locks
      && (rooms[chId].messageId.Some? ==> rooms[chId].messageId.value !in e.world.messages)
  {
  }

  /** The `finally` block deletes an empty room's channel even when fetching its message failed. */
  lemma LeaveEmptyDeletesAfterFailedFetch(c: Config, w: World, rooms: map<int, Room>, locks: set<int>, chId: int)
    requires chId in rooms && chId in w.channels && |w.channels[chId].members| == 0
    requires w.channels[chId].category != c.categoryFilled && rooms[chId].messageId.Some?
    requires w.faults == map[w.calls := HttpError]
    ensures var e := BeforeChannelSpec(c, w, rooms, locks, chId);
      && !e.raised && chId !in e.world.channels && chId !in e.rooms && chId !in e.locks
      && e.world.messages == w.messages
  {
    LeaveEmptyTearsDown(c, w, rooms, locks, chId);
  }

  /** A second leave event for a torn-down room changes nothing but the lock table. */
  lemma RepeatedLeaveIsNoOp(c: Config, w: World, rooms: map<int, Room>, locks: set<int>, chId: int)
    requires chId in rooms && chId in w.channels && |w.channels[chId].members| == 0
    ensures var e := BeforeChannelSpec(c, w, rooms, locks, chId);
      !e.raised ==>
        chId !in e.rooms
        && BeforeChannelSpec(c, e.world, e.rooms, e.locks, chId) == Effect(e.world, e.rooms, e.locks + {chId}, false)
  {
    LeaveEmptyTearsDown(c, w, rooms, locks, chId);
  }

  /**
   * Joining a trigger channel creates a room in the find category with the
   * trigger's capacity; the trigger itself is not a room, so no announcement
   * is posted.
   */
  lemma JoinTriggerCreatesRoom(c: Config, w: World, rooms: map<int, Room>, locks: set<int>, chId: int, member: int)
    requires WorldOk(w) && chId in w.channels && chId !in rooms
    requires w.channels[chId].category == c.categoryCreateRoom && chId in ChannelLimits(c)
    ensures var e := AfterChannelSpec(c, w, rooms, locks, chId, member);
      var limit := ChannelLimits(c)[chId];
      && !e.raised && e.locks == locks + {chId} && e.world.messages == w.messages
      && (Fault(w).Some? ==> e.rooms == rooms)
      && (Fault(w).None? ==>
           && e.rooms == rooms[w.nextId := Room(member, None, 0, "")]
           && w.nextId in e.world.channels
           && e.world.channels[w.nextId].name == RoomName(limit)
           && e.world.channels[w.nextId].userLimit == limit
           && e.world.channels[w.nextId].category == GetCategory(w, c.categoryFind))
  {
    assert chId < w.nextId;
    CreateRoomEffect(w, rooms, c.categoryFind, ChannelLimits(c)[chId], member);
  }

  /** A join in a room still in phase 0 posts its first announcement. */
  lemma JoinPhaseZeroAnnounces(c: Config, w: World, rooms: map<int, Room>, locks: set<int>, chId: int, member: int)
    requires chId in w.channels && chId in rooms && rooms[chId].value == 0
    requires IsRoomCategory(c, w.channels[chId].category)
    requires !(w.channels[chId].category == c.categoryCreateRoom && chId in ChannelLimits(c))
    requires w.channels[chId].category == c.categoryFilled
          || |w.channels[chId].members| != w.channels[chId].userLimit
    ensures var e := AfterChannelSpec(c, w, rooms, locks, chId, member);
      && !e.raised && chId in e.rooms && e.rooms[chId].value == 1
      && (Fault(w).None? && Fault(Tick(w)).None? ==>
           && e.rooms[chId].messageId == Some(w.nextId)
           && e.world.messages == w.messages[w.nextId := AnnouncementFor(w.channels[chId], rooms[chId])])
  {
  }

  /**
   * A room reaching its limit outside the filled category keeps its record
   * unchanged (stale message id and phase), posts nothing, loses at most its
   * own message, and moves to the filled category only when it exists.
   */
  lemma JoinFullRoomFills(c: Config, w: World, rooms: map<int, Room>, locks: set<int>, chId: int, member: int)
    requires chId in w.channels && chId in rooms
    requires IsRoomCategory(c, w.channels[chId].category) && w.channels[chId].category != c.categoryFilled
    requires !(w.channels[chId].category == c.categoryCreateRoom && chId in ChannelLimits(c))
    requires |w.channels[chId].members| == w.channels[chId].userLimit
    ensures var e := AfterChannelSpec(c, w, rooms, locks, chId, member);
      var room := rooms[chId];
      && e.rooms == rooms && e.world.nextId == w.nextId
      && (room.messageId.None? ==> e.world.messages == w.messages)
      && (room.messageId.Some? ==> e.world.messages == w.messages || e.world.messages == w.messages - {room.messageId.value})
      && (w.faults == map[] && room.messageId.Some? ==> room.messageId.value !in e.world.messages)
      && (GetCategory(w, c.categoryFilled).None? ==> !e.raised && e.world.channels == w.channels)
      && (GetCategory(w, c.categoryFilled).Some? && !e.raised ==> e.world.channels[chId].category == c.categoryFilled)
  {
    DeleteAnnouncementEffect(w, rooms[chId].messageId);
  }

  /**
   * A voice-state event that leaves a full room of the filled category in
   * place (a mute toggle: before and after are the same channel) finds the
   * message deleted at the fill and, without failures, posts a new
   * announcement for the full room and tracks it.
   */
  lemma MuteInFilledRoomReannounces(c: Config, w: World, rooms: map<int, Room>, locks: set<int>, chId: int, member: int)
    requires EventOk(w, member, Some(chId), Some(chId)) && c.textChannelId in w.textChannels
    requires chId in rooms && w.channels[chId].category == c.categoryFilled && c.categoryFilled != c.categoryCreateRoom
    requires |w.channels[chId].members| == w.channels[chId].userLimit
    requires rooms[chId].messageId.Some? && rooms[chId].messageId.value !in w.messages
    requires w.faults == map[]
    ensures var e := VoiceStateUpdateSpec(c, w, rooms, locks, member, Some(chId), Some(chId));
      && !e.raised && chId in e.rooms
      && e.rooms[chId].messageId == Some(w.nextId) && e.rooms[chId].value == 1
      && w.nextId in e.world.messages
      && e.world.messages[w.nextId] == AnnouncementFor(w.channels[chId], rooms[chId])
      && e.world.channels[chId] == w.channels[chId]
  {
    var ch := w.channels[chId];
    var room := rooms[chId];
    assert member in ch.members;
    RefreshEffect(w, chId, room);
    var e1 := BeforeChannelSpec(c, w, rooms, locks, chId);
    var posted := CreateMessageSpec(Tick(w), chId, room);
    assert e1 == Effect(posted.0, rooms[chId := posted.1], locks + {chId}, false);
    RefreshEffect(posted.0, chId, posted.1);
  }

  /** A status change outside a tracked room of the find category changes nothing but the lock table. */
  lemma StatusIgnoresOtherChannels(c: Config, w: World, rooms: map<int, Room>, locks: set<int>,
                                   chId: int, status: Option<string>)
    requires !(chId in rooms && chId in w.channels && w.channels[chId].category == c.categoryFind)
    ensures var e := StatusUpdateSpec(c, w, rooms, locks, chId, status);
      && e.world == w && e.rooms == rooms && !e.raised
      && e.locks == if chId in w.channels && c.textChannelId in w.textChannels then locks + {chId} else locks
  {
  }

  /**
   * In a tracked room of the find category the comment changes only after a
   * successful fetch, and then the comment field is rewritten; a message that
   * is gone is announced again with the old comment.
   */
  lemma StatusUpdatesComment(c: Config, w: World, rooms: map<int, Room>, locks: set<int>,
                             chId: int, status: Option<string>)
    requires chId in rooms && chId in w.channels && w.channels[chId].category == c.categoryFind
    requires c.textChannelId in w.textChannels
    ensures var e := StatusUpdateSpec(c, w, rooms, locks, chId, status);
      var room := rooms[chId];
      var comment := if status.Some? then status.value else "";
      && !e.raised && e.locks == locks + {chId} && chId in e.rooms
      && (forall k | k in rooms && k != chId :: k in e.rooms && e.rooms[k] == rooms[k])
      && (room.messageId.None? ==> e.rooms[chId] == CreateMessageSpec(w, chId, room).1
                                   && e.world == CreateMessageSpec(w, chId, room).0)
      && (room.messageId.Some? ==>
           var fetch := FetchMessage(w, room.messageId.value);
           && (fetch.1.Success? ==> e.rooms[chId] == room.(comment := comment))
           && (fetch.1.Success? && Fault(Tick(w)).None? && |fetch.1.value.fields| >= 2 ==>
                e.world.messages[room.messageId.value]
                  == Embed(fetch.1.value.fields[1 := CommentField(comment)]))
           && (fetch.1 == Failure(NotFound) ==>
                && e.rooms[chId] == CreateMessageSpec(Tick(w), chId, room).1 && e.rooms[chId].comment == room.comment
                && e.world == CreateMessageSpec(Tick(w), chId, room).0)
           && (fetch.1.Failure? && fetch.1.error != NotFound ==> e.rooms == rooms && e.world == Tick(w)))
  {
  }

  /** The leaving side keeps every record's invariant. */
  lemma BeforeChannelKeepsTable(c: Config, w: World, rooms: map<int, Room>, locks: set<int>, chId: int)
    requires chId in rooms ==> chId in w.channels
    requires TableOk(rooms)
    ensures TableOk(BeforeChannelSpec(c, w, rooms, locks, chId).rooms)
  {
    if chId in rooms {
      var ch := w.channels[chId];
      var room := rooms[chId];
      assert RecordOk(room);
      var reopen := ch.category == c.categoryFilled && |ch.members| < ch.userLimit;
      var edit := if reopen then EditCategory(w, chId, GetCategory(w, c.categoryFind)) else (w, Pass);
      var posted := if reopen then CreateMessageSpec(edit.0, chId, room) else (edit.0, room);
      if edit.1.Pass? && |ch.members| > 0 {
        RefreshKeepsRecord(posted.0, chId, posted.1);
      }
    }
  }

  /** Storing a record that keeps the invariant keeps the table's invariant. */
  lemma TableOkUpdate(rooms: map<int, Room>, k: int, room: Room)
    requires TableOk(rooms) && RecordOk(room)
    ensures TableOk(rooms[k := room])
  {
  }

  /** A join keeps the invariant of the record it touches. */
  lemma JoinRoomKeepsRecord(c: Config, w: World, chId: int, room: Room)
    requires chId in w.channels && RecordOk(room)
    ensures RecordOk(JoinRoomSpec(c, w, chId, room).1)
  {
    var ch := w.channels[chId];
    if !(ch.category != c.categoryFilled && |ch.members| == ch.userLimit) && room.value == 1 {
      RefreshKeepsRecord(w, chId, room);
    }
  }

  /** The joining side keeps every record's invariant; a new room starts in phase 0 without a message. */
  lemma AfterChannelKeepsTable(c: Config, w: World, rooms: map<int, Room>, locks: set<int>, chId: int, member: int)
    requires chId in w.channels
    requires TableOk(rooms)
    ensures TableOk(AfterChannelSpec(c, w, rooms, locks, chId, member).rooms)
  {
    var ch := w.channels[chId];
    var limits := ChannelLimits(c);
    if ch.category == c.categoryCreateRoom && chId in limits {
      var created := CreateRoomSpec(w, rooms, c.categoryFind, limits[chId], member);
      CreateRoomEffect(w, rooms, c.categoryFind, limits[chId], member);
      if Fault(w).None? {
        TableOkUpdate(rooms, w.nextId, Room(member, None, 0, ""));
      }
      assert TableOk(created.1);
      if chId in created.1 {
        var posted := CreateMessageSpec(created.0, chId, created.1[chId]);
        TableOkUpdate(created.1, chId, posted.1);
      }
    } else if IsRoomCategory(c, ch.category) && chId in rooms {
      JoinRoomKeepsRecord(c, w, chId, rooms[chId]);
      TableOkUpdate(rooms, chId, JoinRoomSpec(c, w, chId, rooms[chId]).1);
    }
  }

  /** A status change keeps every record's invariant. */
  lemma StatusUpdateKeepsTable(c: Config, w: World, rooms: map<int, Room>, locks: set<int>,
                               chId: int, status: Option<string>)
    requires TableOk(rooms)
    ensures TableOk(StatusUpdateSpec(c, w, rooms, locks, chId, status).rooms)
  {
    if chId in rooms {
      assert RecordOk(rooms[chId]);
    }
  }

  /** A whole voice-state event keeps every record's invariant. */
  lemma VoiceStateUpdateKeepsTable(c: Config, w: World, rooms: map<int, Room>, locks: set<int>,
                                   member: int, before: Option<int>, after: Option<int>)
    requires EventOk(w, member, before, after) && TableOk(rooms)
    ensures TableOk(VoiceStateUpdateSpec(c, w, rooms, locks, member, before, after).rooms)
  {
    if c.textChannelId in w.textChannels {
      if before.Some? && IsRoomCategory(c, w.channels[before.value].category) {
        BeforeChannelKeepsTable(c, w, rooms, locks, before.value);
      }
      var e1 := LeaveSideSpec(c, w, rooms, locks, before);
      if !e1.raised && after.Some? {
        LeaveSideKeepsTarget(c, w, rooms, locks, member, before, after);
        AfterChannelKeepsTable(c, e1.world, e1.rooms, e1.locks, after.value, member);
      }
    }
  }

  // ---------------------------------------------------------------------------
  // The cog
  // ---------------------------------------------------------------------------

  /** An entry of the lock table; only its identity matters here. */
  class ChannelLock {
    constructor ()
    {
    }
  }

  /** `create_message` after `refresh`-style fetches: the shared `try` blocks as a method. */
  method RefreshAnnouncement(w: World, chId: int, state: RoomState) returns (w': World)
    requires chId in w.channels
    modifies state
    ensures (w', state.Snapshot()) == RefreshSpec(w, chId, old(state.Snapshot()))
  {
    if state.messageId.None? {
      w' := CreateMessage(w, chId, state);
      return;
    }
    var (w1, fetched) := FetchMessage(w, state.messageId.value);
    w' := w1;
    if fetched.Success? {
      w' := UpdateParticipantsMessage(w1, chId, state, state.messageId.value, fetched.value);
    } else if fetched.error == NotFound {
      w' := CreateMessage(w1, chId, state);
    }
  }

  /** The message deletion `try` blocks as a method. */
  method DeleteAnnouncement(w: World, messageId: Option<int>) returns (w': World)
    ensures w' == DeleteAnnouncementSpec(w, messageId)
  {
    w' := w;
    if messageId.Some? {
      var (w1, fetched) := FetchMessage(w, messageId.value);
      w' := w1;
      if fetched.Success? {
        var (w2, _) := DeleteMessage(w1, messageId.value);
        w' := w2;
      }
    }
  }

  class Autoroomer {
    const config: Config
    var roomStates: map<int, RoomState>
    var channelLocks: map<int, ChannelLock>

    ghost predicate Valid()
      reads this
    {
      ConfigOk(config) && Injective(roomStates)
    }

    /** The values of the records in `room_states`. */
    ghost function Rooms(): map<int, Room>
      reads this`roomStates, roomStates.Values
    {
      Snapshots(roomStates)
    }

    /** `__init__` once its configuration check has passed: both tables empty. */
    constructor (config: Config)
      requires ConfigOk(config)
      ensures Valid() && this.config == config
      ensures roomStates == map[] && channelLocks == map[]
    {
      this.config := config;
      roomStates := map[];
      channelLocks := map[];
    }

    /** `__init__` with its check: a configuration missing a category id raises instead. */
    static method New(config: Config) returns (r: Option<Autoroomer>)
      ensures r.Some? <==> ConfigOk(config)
      ensures r.Some? ==> fresh(r.value) && r.value.Valid() && r.value.config == config
      ensures r.Some? ==> r.value.roomStates == map[] && r.value.channelLocks == map[]
    {
      if !(Truthy(config.categoryFilled) && Truthy(config.categoryFind) && Truthy(config.categoryCreateRoom)) {
        return None;
      }
      var cog := new Autoroomer(config);
      r := Some(cog);
    }

    /** `_get_channel_lock`: get or create the lock of a channel. */
    method GetChannelLock(chId: int) returns (lock: ChannelLock)
      modifies this`channelLocks
      ensures channelLocks == old(channelLocks)[chId := lock]
      ensures chId in old(channelLocks) ==> lock == old(channelLocks[chId])
      ensures chId !in old(channelLocks) ==> fresh(lock)
    {
      if chId !in channelLocks {
        var created := new ChannelLock();
        channelLocks := channelLocks[chId := created];
      }
      lock := channelLocks[chId];
    }

    /** The body of `_handle_before_channel` on a tracked room's record (lines 67-106). */
    method LeaveRoom(w: World, chId: int, state: RoomState) returns (w': World, raised: bool)
      requires chId in w.channels
      modifies state
      ensures (w', state.Snapshot(), raised) == LeaveRoomSpec(config, w, chId, old(state.Snapshot()))
    {
      var ch := w.channels[chId];
      w', raised := w, false;
      if ch.category == config.categoryFilled && |ch.members| < ch.userLimit {
        var edit := EditCategory(w, chId, GetCategory(w, config.categoryFind));
        w' := edit.0;
        if edit.1.Fail? {
          raised := true;
          return;
        }
        if |ch.members| > 0 {
          w' := CreateMessage(w', chId, state);
        }
      }
      if |ch.members| == 0 {
        w' := DeleteAnnouncement(w', state.messageId);
        w' := DeleteChannel(w', chId).0;
      } else {
        w' := RefreshAnnouncement(w', chId, state);
      }
    }

    /**
     * The `finally` block of the teardown (lines 85-89): the record and the
     * lock of the room go (removing an absent key changes nothing).
     */
    method Forget(chId: int)
      requires Injective(roomStates)
      modifies this`roomStates, this`channelLocks
      ensures roomStates == old(roomStates) - {chId} && channelLocks == old(channelLocks) - {chId}
      ensures Injective(roomStates) && Rooms() == old(Rooms()) - {chId}
    {
      SnapshotsRemove(roomStates, chId);
      roomStates := roomStates - {chId};
      channelLocks := channelLocks - {chId};
    }

    /** `_handle_before_channel` once the room is known to be tracked. */
    method LeaveTracked(w: World, chId: int) returns (w': World, raised: bool)
      requires Valid() && chId in roomStates && chId in w.channels
      modifies this`roomStates, this`channelLocks, roomStates.Values
      ensures Valid()
      ensures var r := LeaveRoomSpec(config, w, chId, old(Rooms())[chId]);
        && w' == r.0 && raised == r.2
        && (!r.2 && |w.channels[chId].members| == 0 ==>
             && roomStates == old(roomStates) - {chId}
             && channelLocks == old(channelLocks) - {chId}
             && Rooms() == old(Rooms()) - {chId})
        && (r.2 || |w.channels[chId].members| > 0 ==>
             && roomStates == old(roomStates)
             && channelLocks == old(channelLocks)
             && Rooms() == old(Rooms())[chId := r.1])
    {
      var state := roomStates[chId];
      ghost var r := LeaveRoomSpec(config, w, chId, old(Rooms())[chId]);
      w', raised := LeaveRoom(w, chId, state);
      forall j | j in roomStates && j != chId
        ensures Rooms()[j] == old(Rooms())[j]
      {
        assert roomStates[j] != state;
        assert roomStates[j].Snapshot() == old(roomStates[j].Snapshot());
      }
      UpdatedAt(Rooms(), old(Rooms()), chId);
      if !raised && |w.channels[chId].members| == 0 {
        LeaveRoomKeepsRecordUnlessRefreshed(config, w, chId, old(Rooms())[chId]);
        assert old(Rooms())[chId := r.1] == old(Rooms());
        Forget(chId);
      }
    }

    /** `_handle_before_channel`. */
    method HandleBeforeChannel(w: World, chId: int) returns (w': World, raised: bool)
      requires Valid()
      requires chId in roomStates ==> chId in w.channels
      modifies this, roomStates.Values
      ensures Valid()
      ensures Effect(w', Rooms(), channelLocks.Keys, raised)
           == BeforeChannelSpec(config, w, old(Rooms()), old(channelLocks.Keys), chId)
      ensures roomStates == old(roomStates) || roomStates == old(roomStates) - {chId}
    {
      var lock := GetChannelLock(chId);
      assert channelLocks.Keys == old(channelLocks.Keys) + {chId};
      if chId !in roomStates {
        return w, false;
      }
      ghost var locks1 := channelLocks;
      w', raised := LeaveTracked(w, chId);
      if !raised && |w.channels[chId].members| == 0 {
        assert locks1 - {chId} == old(channelLocks) - {chId};
      }
    }

    /** The body of `_handle_after_channel` on a tracked room's record (lines 128-156). */
    method JoinRoom(w: World, chId: int, state: RoomState) returns (w': World, raised: bool)
      requires chId in w.channels
      modifies state
      ensures (w', state.Snapshot(), raised) == JoinRoomSpec(config, w, chId, old(state.Snapshot()))
    {
      var ch := w.channels[chId];
      w', raised := w, false;
      if ch.category != config.categoryFilled && |ch.members| == ch.userLimit {
        w' := DeleteAnnouncement(w, state.messageId);
        var filled := GetCategory(w', config.categoryFilled);
        if filled.Some? {
          var edit := EditCategory(w', chId, filled);
          w', raised := edit.0, edit.1.Fail?;
        }
      } else if state.value == 0 {
        w' := CreateMessage(w, chId, state);
      } else if state.value == 1 {
        w' := RefreshAnnouncement(w, chId, state);
      }
    }

    /** `create_message` on the record of the tracked room `chId`, seen from the whole table. */
    method Announce(w: World, chId: int) returns (w': World)
      requires Injective(roomStates) && chId in roomStates && chId in w.channels
      modifies roomStates[chId]
      ensures var posted := CreateMessageSpec(w, chId, old(Rooms())[chId]);
        w' == posted.0 && Rooms() == old(Rooms())[chId := posted.1]
    {
      var state := roomStates[chId];
      w' := CreateMessage(w, chId, state);
      forall j | j in roomStates && j != chId
        ensures Rooms()[j] == old(Rooms())[j]
      {
        assert roomStates[j] != state;
        assert roomStates[j].Snapshot() == old(roomStates[j].Snapshot());
      }
      UpdatedAt(Rooms(), old(Rooms()), chId);
    }

    /** `create_room` on `room_states` (line 124). */
    method Register(w: World, userLimit: nat, member: int) returns (w': World)
      requires Injective(roomStates)
      modifies this`roomStates
      ensures Injective(roomStates)
      ensures roomStates == old(roomStates)
           || (w.nextId in roomStates && fresh(roomStates[w.nextId])
               && roomStates == old(roomStates)[w.nextId := roomStates[w.nextId]])
      ensures (w', Rooms()) == CreateRoomSpec(w, old(Rooms()), config.categoryFind, userLimit, member)
    {
      var rooms1;
      w', rooms1 := CreateRoom(w, roomStates, config.categoryFind, userLimit, member);
      ghost var made := Snapshots(rooms1);
      label Made:
      roomStates := rooms1;
      forall j | j in roomStates
        ensures Rooms()[j] == made[j]
      {
        assert roomStates[j].Snapshot() == old@Made(rooms1[j].Snapshot());
      }
      SameTable(Rooms(), made);
    }

    /** The trigger branch of `_handle_after_channel` (lines 123-126): a new room, then its announcement. */
    method OpenRoom(w: World, chId: int, userLimit: nat, member: int) returns (w': World)
      requires Injective(roomStates) && chId in w.channels
      modifies this`roomStates, roomStates.Values
      ensures Injective(roomStates)
      ensures (w', Rooms()) == OpenRoomSpec(config, w, old(Rooms()), chId, userLimit, member)
    {
      w' := Register(w, userLimit, member);
      if chId in roomStates {
        w' := Announce(w', chId);
      }
    }

    /** `_handle_after_channel`. */
    method HandleAfterChannel(w: World, chId: int, member: int) returns (w': World, raised: bool)
      requires Valid() && chId in w.channels
      modifies this, roomStates.Values
      ensures Valid()
      ensures Effect(w', Rooms(), channelLocks.Keys, raised)
           == AfterChannelSpec(config, w, old(Rooms()), old(channelLocks.Keys), chId, member)
    {
      var limits := ChannelLimits(config);
      var lock := GetChannelLock(chId);
      assert channelLocks.Keys == old(channelLocks.Keys) + {chId};
      var ch := w.channels[chId];
      w', raised := w, false;
      if ch.category == config.categoryCreateRoom && chId in limits {
        w' := OpenRoom(w, chId, limits[chId], member);
      } else if IsRoomCategory(config, ch.category) && chId in roomStates {
        var state := roomStates[chId];
        w', raised := JoinRoom(w, chId, state);
        forall j | j in roomStates && j != chId
          ensures Rooms()[j] == old(Rooms())[j]
        {
          assert roomStates[j] != state;
          assert roomStates[j].Snapshot() == old(roomStates[j].Snapshot());
        }
        UpdatedAt(Rooms(), old(Rooms()), chId);
      }
    }

    /** `on_voice_state_update`; `raised` says that its `except` caught an error from a handler. */
    method OnVoiceStateUpdate(w: World, member: int, before: Option<int>, after: Option<int>)
      returns (w': World, raised: bool)
      requires Valid() && EventOk(w, member, before, after)
      modifies this, roomStates.Values
      ensures Valid()
      ensures Effect(w', Rooms(), channelLocks.Keys, raised)
           == VoiceStateUpdateSpec(config, w, old(Rooms()), old(channelLocks.Keys), member, before, after)
    {
      w', raised := w, false;
      if config.textChannelId !in w.textChannels {
        return;
      }
      if before.Some? && IsRoomCategory(config, w.channels[before.value].category) {
        w', raised := HandleBeforeChannel(w, before.value);
        if raised {
          return;
        }
      }
      if after.Some? {
        LeaveSideKeepsTarget(config, w, old(Rooms()), old(channelLocks.Keys), member, before, after);
        w', raised := HandleAfterChannel(w', after.value, member);
      }
    }

    /** `on_voice_channel_status_update`; `chId` outside the world's voice channels is a channel of another kind. */
    method OnVoiceChannelStatusUpdate(w: World, chId: int, status: Option<string>) returns (w': World)
      requires Valid()
      modifies this, roomStates.Values
      ensures Valid() && roomStates == old(roomStates)
      ensures Effect(w', Rooms(), channelLocks.Keys, false)
           == StatusUpdateSpec(config, w, old(Rooms()), old(channelLocks.Keys), chId, status)
      ensures chId in channelLocks ==> channelLocks == old(channelLocks)[chId := channelLocks[chId]]
      ensures chId !in channelLocks ==> channelLocks == old(channelLocks)
    {
      w' := w;
      if chId !in w.channels || config.textChannelId !in w.textChannels {
        return;
      }
      var lock := GetChannelLock(chId);
      assert channelLocks.Keys == old(channelLocks.Keys) + {chId};
      if chId in roomStates && w.channels[chId].category == config.categoryFind {
        var state := roomStates[chId];
        w' := UpdateStatus(w, chId, state, status);
        forall j | j in roomStates && j != chId
          ensures Rooms()[j] == old(Rooms())[j]
        {
          assert roomStates[j] != state;
          assert roomStates[j].Snapshot() == old(roomStates[j].Snapshot());
        }
        UpdatedAt(Rooms(), old(Rooms()), chId);
      }
    }
  }

  /** The body of `on_voice_channel_status_update` on a tracked room in the find category (lines 200-212). */
  method UpdateStatus(w: World, chId: int, state: RoomState, status: Option<string>) returns (w': World)
    requires chId in w.channels
    modifies state
    ensures (w', state.Snapshot()) == StatusRoomSpec(w, chId, old(state.Snapshot()), status)
  {
    if state.messageId.None? {
      w' := CreateMessage(w, chId, state);
      return;
    }
    var fetch := FetchMessage(w, state.messageId.value);
    w' := fetch.0;
    if fetch.1.Success? {
      state.comment := if status.Some? then status.value else "";
      w' := UpdateCommentMessage(fetch.0, state, state.messageId.value, fetch.1.value);
    } else if fetch.1.error == NotFound {
      w' := CreateMessage(fetch.0, chId, state);
    }
  }
}
