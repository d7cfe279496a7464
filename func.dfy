/**
 * The room factory and the announcement renderer of src/utils/func.py.
 *
 * `RoomState` is the mutable per-room record; `Room` is its value at one
 * moment, used by the specification functions. Each operation that changes
 * the platform or a record is a method proved equal to a specification
 * function (`CreateRoomSpec`, `CreateMessageSpec`, ...), and what the source
 * promises is stated on those functions and in lemmas about them.
 */
module Func {
  import opened Wrappers
  import opened Platform

  /** The value of a `RoomState` record. `value` is 0 before the first announcement, 1 after. */
  datatype Room = Room(ownerId: int, messageId: Option<int>, value: int, comment: string)

  /** The per-room record the bot keeps in `room_states`; its fields are assigned in place. */
  class RoomState {
    const ownerId: int
    var messageId: Option<int>
    var value: int
    var comment: string

    constructor (ownerId: int, messageId: Option<int>, value: int, comment: string)
      ensures Snapshot() == Room(ownerId, messageId, value, comment)
    {
      this.ownerId := ownerId;
      this.messageId := messageId;
      this.value := value;
      this.comment := comment;
    }

    function Snapshot(): Room
      reads this
    {
      Room(ownerId, messageId, value, comment)
    }
  }

  /** No two room ids share one record. */
  ghost predicate Injective(m: map<int, RoomState>)
  {
    forall j, k | j in m && k in m && j != k :: m[j] != m[k]
  }

  /** The values of all records of a room table. */
  ghost function Snapshots(m: map<int, RoomState>): (r: map<int, Room>)
    reads m.Values
    ensures r.Keys == m.Keys
  {
    map k | k in m :: m[k].Snapshot()
  }

  /** A fresh record stored under `k` adds exactly one value to the table. */
  lemma SnapshotsInsert(m: map<int, RoomState>, k: int, s: RoomState)
    requires Injective(m) && s !in m.Values
    ensures Injective(m[k := s])
    ensures Snapshots(m[k := s]) == Snapshots(m)[k := s.Snapshot()]
  {
    var m' := m[k := s];
    forall j, i | j in m' && i in m' && j != i
      ensures m'[j] != m'[i]
    {
      if j != k && i != k {
        assert m'[j] == m[j] && m'[i] == m[i];
      } else if j == k {
        assert m'[i] == m[i] && m[i] in m.Values;
      } else {
        assert m'[j] == m[j] && m[j] in m.Values;
      }
    }
  }

  /** Removing a record removes its value and keeps the table injective. */
  lemma SnapshotsRemove(m: map<int, RoomState>, k: int)
    requires Injective(m)
    ensures Injective(m - {k})
    ensures Snapshots(m - {k}) == Snapshots(m) - {k}
  {
  }

  /** Two tables with the same keys that agree everywhere are equal. */
  lemma SameTable(a: map<int, Room>, b: map<int, Room>)
    requires a.Keys == b.Keys
    requires forall j | j in a :: a[j] == b[j]
    ensures a == b
  {
    assert forall j :: j in a <==> j in b;
    assert forall j | j in a :: a[j] == b[j];
  }

  /** Two tables with the same keys that agree away from `k` differ at most at `k`. */
  lemma UpdatedAt(a: map<int, Room>, b: map<int, Room>, k: int)
    requires k in a && a.Keys == b.Keys
    requires forall j | j in a && j != k :: a[j] == b[j]
    ensures a == b[k := a[k]]
  {
  }

  // ---------------------------------------------------------------------------
  // The roster: `_build_participant_list`
  // ---------------------------------------------------------------------------

  const OwnerMarker: string := "[OWNER]"

  /** Roster slot `i`: participant `i` with the owner suffix, or a free slot. */
  function SlotLine(i: nat, participants: seq<int>, ownerId: int): Line
  {
    if i < |participants| then
      Participant(participants[i], if participants[i] == ownerId then OwnerMarker else "")
    else FreeSlot
  }

  /** The first `userLimit` slots, as the loop of `_build_participant_list` appends them. */
  function Roster(userLimit: nat, participants: seq<int>, ownerId: int): seq<Line>
  {
    if userLimit == 0 then []
    else Roster(userLimit - 1, participants, ownerId) + [SlotLine(userLimit - 1, participants, ownerId)]
  }

  /** The roster has exactly `userLimit` lines, and line `i` describes participant `i` or a free slot. */
  lemma {:induction false} RosterShape(userLimit: nat, participants: seq<int>, ownerId: int)
    ensures |Roster(userLimit, participants, ownerId)| == userLimit
    ensures forall i | 0 <= i < userLimit ::
      var line := Roster(userLimit, participants, ownerId)[i];
      && (i < |participants| ==> line.Participant? && line.userId == participants[i]
                                 && (line.suffix == OwnerMarker <==> participants[i] == ownerId)
                                 && (line.suffix != OwnerMarker ==> line.suffix == ""))
      && (i >= |participants| ==> line == FreeSlot)
  {
    if userLimit > 0 {
      RosterShape(userLimit - 1, participants, ownerId);
    }
  }

  /** Participants past the limit do not appear in the roster. */
  lemma {:induction false} RosterDropsOverflow(userLimit: nat, participants: seq<int>, ownerId: int)
    requires userLimit <= |participants|
    ensures Roster(userLimit, participants, ownerId) == Roster(userLimit, participants[..userLimit], ownerId)
  {
    if userLimit > 0 {
      assert participants[..userLimit][..userLimit - 1] == participants[..userLimit - 1];
      RosterDropsOverflow(userLimit - 1, participants, ownerId);
      RosterDropsOverflow(userLimit - 1, participants[..userLimit], ownerId);
    }
  }

  /** The owner is marked in the roster exactly when the owner holds one of the first `userLimit` places. */
  lemma RosterMarksOwner(userLimit: nat, participants: seq<int>, ownerId: int)
    ensures (exists i | 0 <= i < |Roster(userLimit, participants, ownerId)| ::
               Roster(userLimit, participants, ownerId)[i] == Participant(ownerId, OwnerMarker))
        <==> ownerId in participants[..if userLimit < |participants| then userLimit else |participants|]
  {
    var r := Roster(userLimit, participants, ownerId);
    var n := if userLimit < |participants| then userLimit else |participants|;
    RosterShape(userLimit, participants, ownerId);
    if ownerId in participants[..n] {
      var i :| 0 <= i < n && participants[..n][i] == ownerId;
      assert r[i] == Participant(ownerId, OwnerMarker);
    }
    if exists i | 0 <= i < |r| :: r[i] == Participant(ownerId, OwnerMarker) {
      var i :| 0 <= i < |r| && r[i] == Participant(ownerId, OwnerMarker);
      assert participants[..n][i] == ownerId;
    }
  }

  /** `_build_participant_list`: one line per slot of the room's user limit. */
  method BuildParticipantList(userLimit: nat, participants: seq<int>, ownerId: int) returns (output: seq<Line>)
    ensures |output| == userLimit
    ensures forall i | 0 <= i < |output| && i < |participants| ::
      output[i] == Participant(participants[i], if participants[i] == ownerId then OwnerMarker else "")
    ensures forall i | |participants| <= i < |output| :: output[i] == FreeSlot
    ensures output == Roster(userLimit, participants, ownerId)
  {
    output := [];
    for i := 0 to userLimit
      invariant |output| == i
      invariant output == Roster(i, participants, ownerId)
      invariant forall j | 0 <= j < i :: output[j] == SlotLine(j, participants, ownerId)
    {
      if i < |participants| {
        var suffix := if participants[i] == ownerId then OwnerMarker else "";
        output := output + [Participant(participants[i], suffix)];
      } else {
        output := output + [FreeSlot];
      }
    }
  }

  // ---------------------------------------------------------------------------
  // The announcement embed: `_build_embed`, field layout only
  // ---------------------------------------------------------------------------

  /** Field 0 is the roster, field 1 the comment. */
  function AnnouncementEmbed(roster: seq<Line>, comment: string): Embed
  {
    Embed([RosterField(roster), CommentField(comment)])
  }

  /** The announcement the bot would post for a channel and a room. */
  function AnnouncementFor(ch: VoiceChannel, room: Room): Embed
  {
    AnnouncementEmbed(Roster(ch.userLimit, ch.members, room.ownerId), room.comment)
  }

  // ---------------------------------------------------------------------------
  // The room factory: `CreateRoom.create_room`
  // ---------------------------------------------------------------------------

  function DigitChar(d: nat): char
    requires d < 10
  {
    "0123456789"[d]
  }

  /** Decimal digits of `n`, as Python's `str(n)`. */
  function Decimal(n: nat): string
  {
    if n < 10 then [DigitChar(n)] else Decimal(n / 10) + [DigitChar(n % 10)]
  }

  /** `f"Room_{user_limit}"`. */
  function RoomName(userLimit: nat): string
  {
    "Room_" + Decimal(userLimit)
  }

  /** The three configured capacities give the names the source writes out. */
  lemma RoomNames()
    ensures RoomName(2) == "Room_2" && RoomName(3) == "Room_3" && RoomName(4) == "Room_4"
  {
  }

  /**
   * What `create_room` does: create the channel, record a fresh state for it,
   * grant the member operator permissions, move the member in. A failed
   * creation records nothing; a failure after it keeps the record.
   */
  function CreateRoomSpec(w: World, rooms: map<int, Room>, categoryId: Option<int>, userLimit: nat, member: int)
    : (r: (World, map<int, Room>))
    ensures w.channels.Keys <= r.0.channels.Keys
  {
    var (w1, created) := CreateVoiceChannel(w, RoomName(userLimit), GetCategory(w, categoryId), userLimit);
    if created.Failure? then (w1, rooms)
    else
      var id := created.value;
      var rooms1 := rooms[id := Room(member, None, 0, "")];
      var (w2, granted) := SetPermissions(w1, id, member);
      if granted.Fail? then (w2, rooms1)
      else (MoveTo(w2, member, id).0, rooms1)
  }

  /**
   * A room is recorded exactly when its channel is created: a new channel
   * named after its capacity, in the requested category, whose operator the
   * member becomes and which the member then joins, and no message is posted.
   * A failed permission grant or move keeps the record.
   */
  lemma CreateRoomEffect(w: World, rooms: map<int, Room>, categoryId: Option<int>, userLimit: nat, member: int)
    ensures var r := CreateRoomSpec(w, rooms, categoryId, userLimit, member);
      && (Fault(w).Some? ==> r == (Tick(w), rooms))
      && (Fault(w).None? ==>
           && r.1 == rooms[w.nextId := Room(member, None, 0, "")]
           && w.nextId in r.0.channels
           && r.0.channels[w.nextId].name == RoomName(userLimit)
           && r.0.channels[w.nextId].userLimit == userLimit
           && r.0.channels[w.nextId].category == GetCategory(w, categoryId))
      && (Fault(w).None? && Fault(Tick(w)).None? ==> member in r.0.channels[w.nextId].operators)
      && (Fault(w).None? && Fault(Tick(w)).None? && Fault(Tick(Tick(w))).None? ==>
           r.0.channels[w.nextId].members == [member])
      && r.0.channels.Keys == w.channels.Keys + (if Fault(w).None? then {w.nextId} else {})
      && r.0.messages == w.messages
      && (WorldOk(w) ==> WorldOk(r.0))
  {
  }

  /** `CreateRoom.create_room`: `roomStates` is the table the caller passes in, returned updated. */
  method CreateRoom(w: World, roomStates: map<int, RoomState>, categoryId: Option<int>, userLimit: nat, member: int)
    returns (w': World, roomStates': map<int, RoomState>)
    requires Injective(roomStates)
    ensures Injective(roomStates')
    ensures roomStates' == roomStates
         || (w.nextId in roomStates' && fresh(roomStates'[w.nextId])
             && roomStates' == roomStates[w.nextId := roomStates'[w.nextId]])
    ensures (w', Snapshots(roomStates')) == CreateRoomSpec(w, Snapshots(roomStates), categoryId, userLimit, member)
  {
    roomStates' := roomStates;
    var (w1, created) := CreateVoiceChannel(w, RoomName(userLimit), GetCategory(w, categoryId), userLimit);
    w' := w1;
    if created.Failure? {
      return;
    }
    var id := created.value;
    var state := new RoomState(member, None, 0, "");
    SnapshotsInsert(roomStates, id, state);
    roomStates' := roomStates[id := state];
    var (w2, granted) := SetPermissions(w1, id, member);
    w' := w2;
    if granted.Fail? {
      return;
    }
    var (w3, _) := MoveTo(w2, member, id);
    w' := w3;
  }

  // ---------------------------------------------------------------------------
  // The announcement: `Message.create_message` and the two updates
  // ---------------------------------------------------------------------------

  /**
   * What `create_message` does to the platform and the record: `value` becomes 1
   * before any call; `message_id` is set only when the invite and the send both succeed.
   */
  function CreateMessageSpec(w: World, chId: int, room: Room): (r: (World, Room))
    requires chId in w.channels
    ensures r.1.ownerId == room.ownerId && r.1.comment == room.comment && r.1.value == 1
    ensures Fault(w).None? && Fault(Tick(w)).None? ==>
      && r.1.messageId == Some(w.nextId)
      && r.0.messages == w.messages[w.nextId := AnnouncementFor(w.channels[chId], room)]
    ensures !(Fault(w).None? && Fault(Tick(w)).None?) ==>
      r.1.messageId == room.messageId && r.0.messages == w.messages
    ensures r.0.channels == w.channels
    ensures WorldOk(w) ==> WorldOk(r.0)
  {
    var marked := room.(value := 1);
    var embed := AnnouncementFor(w.channels[chId], marked);
    var (w1, invite) := CreateInvite(w, chId);
    if invite.Fail? then (w1, marked)
    else
      var (w2, sent) := SendMessage(w1, embed);
      if sent.Failure? then (w2, marked) else (w2, marked.(messageId := Some(sent.value)))
  }

  /** `Message.create_message` on the record `state` of the room `chId`. */
  method CreateMessage(w: World, chId: int, state: RoomState) returns (w': World)
    requires chId in w.channels
    modifies state
    ensures (w', state.Snapshot()) == CreateMessageSpec(w, chId, old(state.Snapshot()))
  {
    state.value := 1;
    var ch := w.channels[chId];
    var roster := BuildParticipantList(ch.userLimit, ch.members, state.ownerId);
    var embed := AnnouncementEmbed(roster, state.comment);
    var (w1, invite) := CreateInvite(w, chId);
    w' := w1;
    if invite.Fail? {
      return;
    }
    var (w2, sent) := SendMessage(w1, embed);
    w' := w2;
    if sent.Success? {
      state.messageId := Some(sent.value);
    }
  }

  /** What `update_participants_message` does with the fetched embed `embed` of message `msgId`. */
  function UpdateParticipantsSpec(w: World, ch: VoiceChannel, room: Room, msgId: int, embed: Embed): (w': World)
    ensures w'.channels == w.channels && w'.nextId == w.nextId
    ensures w'.messages.Keys == w.messages.Keys
    ensures forall k | k in w.messages && k != msgId :: w'.messages[k] == w.messages[k]
    ensures msgId in w'.messages && w'.messages[msgId] != w.messages[msgId] ==>
      && |embed.fields| > 0
      && w'.messages[msgId].fields == embed.fields[0 := RosterField(Roster(ch.userLimit, ch.members, room.ownerId))]
  {
    if |embed.fields| == 0 then w
    else
      var fields := embed.fields[0 := RosterField(Roster(ch.userLimit, ch.members, room.ownerId))];
      EditMessage(w, msgId, Embed(fields)).0
  }

  /** `Message.update_participants_message`: rewrites field 0 of the fetched embed and edits the message. */
  method UpdateParticipantsMessage(w: World, chId: int, state: RoomState, msgId: int, embed: Embed)
    returns (w': World)
    requires chId in w.channels
    ensures w' == UpdateParticipantsSpec(w, w.channels[chId], state.Snapshot(), msgId, embed)
  {
    if |embed.fields| == 0 {
      w' := w;
      return;
    }
    var ch := w.channels[chId];
    var output := BuildParticipantList(ch.userLimit, ch.members, state.ownerId);
    var fields := embed.fields[0 := RosterField(output)];
    var (w1, _) := EditMessage(w, msgId, Embed(fields));
    w' := w1;
  }

  /** What `update_comment_message` does with the fetched embed `embed` of message `msgId`. */
  function UpdateCommentSpec(w: World, room: Room, msgId: int, embed: Embed): (w': World)
    ensures w'.channels == w.channels && w'.nextId == w.nextId
    ensures w'.messages.Keys == w.messages.Keys
    ensures forall k | k in w.messages && k != msgId :: w'.messages[k] == w.messages[k]
    ensures msgId in w'.messages && w'.messages[msgId] != w.messages[msgId] ==>
      && |embed.fields| > 1
      && w'.messages[msgId].fields == embed.fields[1 := CommentField(room.comment)]
  {
    if |embed.fields| < 2 then w
    else EditMessage(w, msgId, Embed(embed.fields[1 := CommentField(room.comment)])).0
  }

  /** `Message.update_comment_message`: rewrites field 1 of the fetched embed and edits the message. */
  method UpdateCommentMessage(w: World, state: RoomState, msgId: int, embed: Embed) returns (w': World)
    ensures w' == UpdateCommentSpec(w, state.Snapshot(), msgId, embed)
  {
    if |embed.fields| < 2 {
      w' := w;
      return;
    }
    var fields := embed.fields[1 := CommentField(state.comment)];
    var (w1, _) := EditMessage(w, msgId, Embed(fields));
    w' := w1;
  }

  /**
   * On an announcement laid out by `_build_embed`, a successful participant update
   * changes only the roster and a successful comment update changes only the comment.
   */
  lemma UpdatesKeepFieldLayout(w: World, ch: VoiceChannel, room: Room, msgId: int, roster: seq<Line>, comment: string)
    requires msgId in w.messages && Fault(w).None?
    ensures UpdateParticipantsSpec(w, ch, room, msgId, AnnouncementEmbed(roster, comment)).messages[msgId]
         == AnnouncementEmbed(Roster(ch.userLimit, ch.members, room.ownerId), comment)
    ensures UpdateCommentSpec(w, room, msgId, AnnouncementEmbed(roster, comment)).messages[msgId]
         == AnnouncementEmbed(roster, room.comment)
  {
  }

  /** `message_id` is only ever set together with `value == 1`. */
  ghost predicate Coupled(room: Room)
  {
    room.messageId.Some? ==> room.value == 1
  }

  /**
   * Creating an announcement keeps the coupling whatever the calls do, and a
   * failed invite or send leaves the old record in phase 1: a record without
   * a message id stays without one, so the converse of the coupling fails.
   */
  lemma CreateMessageCoupling(w: World, chId: int, room: Room)
    requires chId in w.channels
    ensures Coupled(CreateMessageSpec(w, chId, room).1)
    ensures !(Fault(w).None? && Fault(Tick(w)).None?) ==> CreateMessageSpec(w, chId, room).1 == room.(value := 1)
  {
  }
}
