# Auto-room bot core, modelled in Dafny

The bot watches the voice channels of a Discord guild:

- **Joining a trigger channel.** A member who joins one of three trigger channels gets a new voice channel "Room_N" with capacity N = 2, 3 or 4. The channel is placed in the "find" category. The member becomes its operator and is moved into it.
- **The record and the announcement.** Each such room has a record in `room_states`: owner, tracked message id, phase `value` and comment. An announcement embed in a text channel lists the room's participants and free slots.
- **A full room.** When a room reaches its limit, its announcement is deleted and the room moves to the "filled" category.
- **A room below its limit again.** When a filled room drops below its limit, it moves back to "find" and is announced again.
- **An empty room.** An empty room is deleted, together with its record and its lock.
- **Status changes.** A change of the voice channel's status becomes the announcement's comment.
- **Localised texts.** These are looked up by dotted keys in a JSON document.

The model has five modules:

- `Wrappers` defines `Option`, `Result` and `Outcome`.
- `Platform` holds the guild as a value, a `World`. Every platform call the bot makes is a function from world to world plus outcome. Any call can be made to fail by the `faults` map; "not found" follows from the state itself.
- `Func` covers `src/utils/func.py`:
  - the `RoomState` record, as a class whose fields are assigned in place, and its value `Room`;
  - `create_room`;
  - `create_message`;
  - the two message updates;
  - the participant list, an imperative loop.
- `Localization` covers `get_text`, as a loop over the segments of the key.
- `Autoroomer` covers the cog. It is a class holding `room_states` (a map of `RoomState` objects) and the lock table. Each handler is a method proved equal to a specification function over the world, the values of the records and the keys of the lock table. The lifecycle rules are lemmas about those functions.

The quirks of the code are reproduced as written:

- The announcement made after a trigger join is guarded by the *trigger's* id being in `room_states`. Normally it is not, so nothing is posted.
- When a member leaves a filled room that drops below its limit and still has members, the room moves to the find category and a new announcement is created (line 72). The refresh of lines 96-104 then runs as well, on the new message.
- After the fill transition the record keeps its stale message id and phase. A later event in the full filled room (a mute toggle, say) finds that message gone and posts a new announcement for the full room.
- `value = 1` is set before the announcement is sent, so a failed send leaves phase 1 without a message id.
- `channel.edit` at lines 70 and 143 of `src/cogs/autoroomer.py` is outside any `try` block. Its failure escapes to the `except` of `on_voice_state_update` (lines 178-179), where it is logged; the model calls this "raised". A failure at line 70, on the leaving side, also skips the joining side of the event. A failure at line 143 is on the joining side itself and ends it.

## Model

| member | source | states |
|---|---|---|
| Func.RoomState.constructor | src/utils/func.py:8-13 | a record holds exactly the owner, message id, phase and comment it was built with |
| Func.Roster | src/utils/func.py:195-207 | reference definition of the participant list, slot by slot; constrained by `RosterShape`, `RosterDropsOverflow`, `RosterMarksOwner`, and `BuildParticipantList` is proved equal to it |
| Func.RosterShape | src/utils/func.py:195-207 | the participant list has exactly `user_limit` lines; line i is participant i, while participants last, marked "[OWNER]" exactly when it is the owner; the remaining lines are free slots |
| Func.RosterDropsOverflow | src/utils/func.py:196-197 | participants beyond the user limit do not affect the list |
| Func.RosterMarksOwner | src/utils/func.py:198-199 | some line carries the owner marker if and only if the owner is among the first `user_limit` participants |
| Func.BuildParticipantList | src/utils/func.py:195-207 | the loop yields exactly `user_limit` lines, participants in order with their marker then free slots, equal to the reference list `Roster` |
| Func.RoomName | src/utils/func.py:39 | reference definition of `f"Room_{user_limit}"`, with Python's decimal `str`; pinned to the configured capacities by `RoomNames` and used by `CreateRoomEffect` |
| Func.RoomNames | src/utils/func.py:39 | rooms of capacity 2, 3 and 4 are named "Room_2", "Room_3" and "Room_4" |
| Func.CreateRoomSpec | src/utils/func.py:37-54 | creating a room never removes a voice channel |
| Func.CreateRoomEffect | src/utils/func.py:37-54 | a failed channel creation changes nothing but the call count; otherwise exactly one new record (owner, no message, phase 0, empty comment) is stored under the new channel's id, the channel is named after its capacity, has that limit and lies in the requested category when it exists; once the grant succeeds the member is its operator, and once the move succeeds too the member is its only occupant; no message changes and identifiers stay fresh |
| Func.CreateRoom | src/utils/func.py:37-54 | the method inserts one fresh record and nothing else, keeps records unshared, and its world and record values are those of `CreateRoomSpec` |
| Func.CreateMessageSpec | src/utils/func.py:78-88 | the record always ends in phase 1 with its owner and comment; a message id is set, to the new message holding the room's announcement, exactly when the invite and the send both succeed; otherwise the id and the messages are unchanged; channels are untouched |
| Func.CreateMessage | src/utils/func.py:78-88 | the method's new world and record value are those of `CreateMessageSpec` |
| Func.UpdateParticipantsSpec | src/utils/func.py:138-148 | only the tracked message can change, and only by replacing its roster field (field 0) with the current roster |
| Func.UpdateParticipantsMessage | src/utils/func.py:138-148 | the method's world is that of `UpdateParticipantsSpec` |
| Func.UpdateCommentSpec | src/utils/func.py:105-118 | only the tracked message can change, and only by replacing its comment field (field 1) with the record's comment |
| Func.UpdateCommentMessage | src/utils/func.py:105-118 | the method's world is that of `UpdateCommentSpec` |
| Func.AnnouncementEmbed | src/utils/func.py:168-171 | reference definition of `_build_embed`'s layout: field 0 the roster, field 1 the comment; the two updates are proved to keep it by `UpdatesKeepFieldLayout` |
| Func.AnnouncementFor | src/utils/func.py:168-171 | the announcement of a room: field 0 is the roster of the channel's user limit and members with the owner marked, field 1 the record's comment; what `CreateMessageSpec`, `LeaveFilledReopens`, `MuteInFilledRoomReannounces` and `RefreshRewritesRoster` say is posted |
| Func.UpdatesKeepFieldLayout | src/utils/func.py:168-171 | on an announcement laid out as roster then comment, each update rewrites its own field and keeps the other |
| Func.CreateMessageCoupling | src/utils/func.py:80-84 | whatever the calls do, the new record has a message id only in phase 1; when the invite or the send fails, it is the old record moved to phase 1, so a record without a message id is left in phase 1 without one |
| Localization.Split | src/utils/localization.py:31 | splitting a key on '.' gives at least one segment, and no segment contains '.' |
| Localization.JoinSplit | src/utils/localization.py:31 | joining the segments of a key with '.' gives the key back |
| Localization.SplitJoin | src/utils/localization.py:31 | splitting a join of dot-free segments gives the segments back |
| Localization.WalkReachesLeaf | src/utils/localization.py:30-34 | in any document, a key whose first segments lead through objects to a value yields that value; a string found before the last segment is returned at once |
| Localization.WalkStopsAtMissing | src/utils/localization.py:32-34 | in any document, a key whose path leads through objects to a missing member yields the missing-translation text for the whole key |
| Localization.WalkOutcome | src/utils/localization.py:30-34 | the walk fails if and only if some prefix of the key, reached through objects, leads to a value that is neither an object nor (below the root) a string |
| Localization.Localization.GetText | src/utils/localization.py:28-35 | the loop returns what the walk finds, formatted only when keyword arguments are given and the value is a string; an error when a segment meets a non-object |
| Localization.GetTextOfPresentKey | src/utils/localization.py:28-35 | in any document, a key whose whole path leads through objects to a string yields that string |
| Localization.Walk | src/utils/localization.py:30-34 | the loop of `get_text` as a recursive reference definition; what it returns is stated by `WalkReachesLeaf`, `WalkStopsAtMissing` and `WalkOutcome` against the plain path lookup `Lookup`, and `GetText` is proved equal to it |
| Autoroomer.ChannelLimits | src/cogs/autoroomer.py:116-120 | the trigger table maps exactly the three trigger ids to capacities 2, 3 and 4, a later entry winning over an equal id |
| Autoroomer.DeleteAnnouncementSpec | src/cogs/autoroomer.py:75-84 | deleting the announcement touches no channel and creates no identifier |
| Autoroomer.DeleteAnnouncementEffect | src/cogs/autoroomer.py:75-84 | without a message id nothing happens; with one, the message disappears exactly when the fetch finds it and the delete goes through |
| Autoroomer.LeaveRoomSpec | src/cogs/autoroomer.py:67-106 | reference definition of the leave of a tracked room: the move to find, raising when it fails, then teardown of an empty room or announcement and refresh; constrained by `LeaveRoomKeepsRecordUnlessRefreshed`, `LeaveFilledReopens`, `LeaveEmptyTearsDown` |
| Autoroomer.BeforeChannelSpec | src/cogs/autoroomer.py:55-106 | reference definition of `_handle_before_channel` over the world, records and lock keys; constrained by `LeaveUntracked`, `LeaveEmptyFaultFree`, `RepeatedLeaveIsNoOp`, `BeforeChannelKeepsChannels`, `BeforeChannelKeepsTable` |
| Autoroomer.JoinRoomSpec | src/cogs/autoroomer.py:127-156 | reference definition of a join in a tracked room: fill, first announcement or refresh; constrained by `JoinRoomKeepsRecord`, `JoinPhaseZeroAnnounces`, `JoinFullRoomFills` |
| Autoroomer.OpenRoomSpec | src/cogs/autoroomer.py:122-126 | reference definition of the trigger branch: room creation, then the announcement guarded by the trigger's id; constrained by `JoinTriggerCreatesRoom` |
| Autoroomer.AfterChannelSpec | src/cogs/autoroomer.py:108-156 | reference definition of `_handle_after_channel`; constrained by `JoinTriggerCreatesRoom`, `JoinPhaseZeroAnnounces`, `JoinFullRoomFills`, `AfterChannelKeepsTable` |
| Autoroomer.LeaveSideSpec | src/cogs/autoroomer.py:174-175 | reference definition of the leaving side of an event, run only for a room category; constrained by `LeaveSideKeepsTarget` |
| Autoroomer.VoiceStateUpdateSpec | src/cogs/autoroomer.py:159-179 | reference definition of `on_voice_state_update`; constrained by `LeaveUntrackedThenJoin`, `MuteInFilledRoomReannounces`, `VoiceStateUpdateKeepsTable` |
| Autoroomer.StatusRoomSpec | src/cogs/autoroomer.py:200-212 | reference definition of the status change of a tracked find room; constrained by `StatusUpdatesComment` |
| Autoroomer.StatusUpdateSpec | src/cogs/autoroomer.py:182-214 | reference definition of `on_voice_channel_status_update`; constrained by `StatusIgnoresOtherChannels`, `StatusUpdatesComment`, `StatusUpdateKeepsTable` |
| Autoroomer.RefreshSpec | src/cogs/autoroomer.py:96-106 | the refresh touches no channel; its effect on the announcement is stated by `RefreshEffect` and `RefreshRewritesRoster` |
| Autoroomer.RefreshEffect | src/cogs/autoroomer.py:96-106 | a fetched message gets its roster field replaced by the current roster and nothing else, with the record unchanged; no message id, or a message that is gone, gives exactly a new announcement; any other fetch error changes only the call count |
| Autoroomer.RefreshRewritesRoster | src/cogs/autoroomer.py:96-104 | without failures, an announcement laid out by the bot is refreshed to the current roster with its comment kept |
| Autoroomer.RefreshKeepsRecord | src/cogs/autoroomer.py:96-106 | the refresh keeps owner and comment, either keeps the record or leaves it in phase 1, never drops a message id, and keeps the record invariant |
| Autoroomer.LeaveRoomKeepsRecordUnlessRefreshed | src/cogs/autoroomer.py:67-106 | when the leaving side raises or tears the room down, the record's value is untouched |
| Autoroomer.BeforeChannelKeepsChannels | src/cogs/autoroomer.py:55-106 | the leaving side changes no membership and deletes at most its own channel, and only an empty tracked one |
| Autoroomer.LeaveSideKeepsTarget | src/cogs/autoroomer.py:174-177 | the channel a member joins still exists after the leaving side of the same event |
| Autoroomer.LeaveUntracked | src/cogs/autoroomer.py:61-65 | leaving an untracked channel only adds its lock entry |
| Autoroomer.LeaveUntrackedThenJoin | src/cogs/autoroomer.py:174-177 | after leaving an untracked channel, the joining side runs on the unchanged world and records |
| Autoroomer.LeaveFilledReopens | src/cogs/autoroomer.py:68-72 | leaving a filled room below its limit raises exactly when the move fails; otherwise, with members left, the room is in the find category, in phase 1, with a message id whenever invite and send succeed; without failures a new announcement of the room is posted and tracked, and the refresh that follows keeps it as posted |
| Autoroomer.LeaveEmptyTearsDown | src/cogs/autoroomer.py:74-95 | an empty room loses its record and its lock whatever the deletions do; only a failed move out of the filled category, which raises first, keeps them; the channel deletion is attempted whatever the message fetch and delete did, and the channel is gone exactly when that call succeeds |
| Autoroomer.LeaveEmptyDeletesAfterFailedFetch | src/cogs/autoroomer.py:85-95 | when fetching the empty room's message fails, the message stays but the channel, the record and the lock are still removed |
| Autoroomer.LeaveEmptyFaultFree | src/cogs/autoroomer.py:74-95 | without platform failures, an empty room's channel, message, record and lock are all gone |
| Autoroomer.RepeatedLeaveIsNoOp | src/cogs/autoroomer.py:62-65 | after a teardown, another leave of the same id only adds its lock entry |
| Autoroomer.JoinTriggerCreatesRoom | src/cogs/autoroomer.py:116-126 | joining a trigger that is not itself a tracked room creates one room of the trigger's capacity, in the find category when the guild has it and outside any category otherwise, or nothing if creation fails; the joining side never raises, and no announcement is posted |
| Autoroomer.JoinPhaseZeroAnnounces | src/cogs/autoroomer.py:144-145 | a join in a phase-0 room that does not fill it sets phase 1 and, when invite and send succeed, posts the announcement and tracks it |
| Autoroomer.JoinFullRoomFills | src/cogs/autoroomer.py:130-143 | a room reaching its limit outside the filled category keeps its record as it was, posts nothing, loses at most its own message (surely so without failures), and moves to the filled category if that category exists |
| Autoroomer.MuteInFilledRoomReannounces | src/cogs/autoroomer.py:96-104 | an event that leaves a member in a full room of the filled category whose message was deleted at the fill, without failures, posts a new announcement for the full room and tracks it |
| Autoroomer.StatusIgnoresOtherChannels | src/cogs/autoroomer.py:182-200 | a status change outside a tracked room of the find category changes nothing but possibly the lock table |
| Autoroomer.StatusUpdatesComment | src/cogs/autoroomer.py:200-212 | in a tracked find room, the comment changes only after a successful fetch and is then written to field 1; without a message id, or with a vanished message, the world and record are exactly those of a new announcement, with the old comment; other errors change nothing; other records are untouched |
| Autoroomer.BeforeChannelKeepsTable | src/cogs/autoroomer.py:55-106 | the leaving side keeps every record in phase 0 or 1 with a message id only in phase 1 |
| Autoroomer.JoinRoomKeepsRecord | src/cogs/autoroomer.py:127-156 | a join keeps the invariant of the record it touches |
| Autoroomer.AfterChannelKeepsTable | src/cogs/autoroomer.py:108-156 | the joining side keeps the invariant of every record, new rooms included |
| Autoroomer.StatusUpdateKeepsTable | src/cogs/autoroomer.py:182-214 | a status change keeps the invariant of every record |
| Autoroomer.VoiceStateUpdateKeepsTable | src/cogs/autoroomer.py:159-179 | a whole voice-state event keeps the invariant of every record |
| Autoroomer.RefreshAnnouncement | src/cogs/autoroomer.py:96-106 | the method's world and record value are those of `RefreshSpec` |
| Autoroomer.DeleteAnnouncement | src/cogs/autoroomer.py:75-84 | the method's world is that of `DeleteAnnouncementSpec` |
| Autoroomer.UpdateStatus | src/cogs/autoroomer.py:200-212 | the method's world and record value are those of the status specification |
| Autoroomer.Autoroomer.constructor | src/cogs/autoroomer.py:21-30 | a cog built from a valid configuration starts with empty room and lock tables |
| Autoroomer.Autoroomer.New | src/cogs/autoroomer.py:21-22 | a cog is built if and only if all three category ids are truthy; it then starts with empty tables |
| Autoroomer.Autoroomer.GetChannelLock | src/cogs/autoroomer.py:41-43 | an existing lock is returned as is; otherwise a fresh one is stored; no other entry changes |
| Autoroomer.Autoroomer.LeaveRoom | src/cogs/autoroomer.py:67-106 | the record's new value, the world and whether it raised are those of the leave specification |
| Autoroomer.Autoroomer.Forget | src/cogs/autoroomer.py:85-89 | the room's record and lock entries are removed and nothing else changes |
| Autoroomer.Autoroomer.LeaveTracked | src/cogs/autoroomer.py:62-106 | the leave of a tracked room updates its record in place, or forgets the room on teardown, as the leave specification says |
| Autoroomer.Autoroomer.HandleBeforeChannel | src/cogs/autoroomer.py:55-106 | the world, record values, lock keys and raise flag are those of `BeforeChannelSpec`; the table only loses the left room |
| Autoroomer.Autoroomer.JoinRoom | src/cogs/autoroomer.py:127-156 | the record's new value, the world and whether it raised are those of the join specification |
| Autoroomer.Autoroomer.Register | src/cogs/autoroomer.py:124 | the table gains only a fresh record, and world and record values are those of `CreateRoomSpec` for the find category |
| Autoroomer.Autoroomer.Announce | src/cogs/autoroomer.py:125-126 | the announcement updates only that room's record, as `CreateMessageSpec` says |
| Autoroomer.Autoroomer.OpenRoom | src/cogs/autoroomer.py:122-126 | room creation followed by the announcement guarded by the trigger's id |
| Autoroomer.Autoroomer.HandleAfterChannel | src/cogs/autoroomer.py:108-156 | the world, record values, lock keys and raise flag are those of `AfterChannelSpec` |
| Autoroomer.Autoroomer.OnVoiceStateUpdate | src/cogs/autoroomer.py:159-179 | an event does nothing without the text channel; otherwise it runs the leaving side, then the joining side unless the leaving side raised |
| Autoroomer.Autoroomer.OnVoiceChannelStatusUpdate | src/cogs/autoroomer.py:182-214 | the status handler keeps the room table; at most one lock entry is added; comment and announcement are updated as `StatusUpdateSpec` says |

## Left out

- Concurrency is not modelled. That covers the asyncio locks, the global `_lock` and interleaving, and the event handlers run one after another. A lock exists only as an entry of the lock table. After a teardown, the next event on that id creates a new one.
- The lock's identity is stated only on `GetChannelLock`. The handlers state only the keys of the lock table.
- Logging is not modelled: `logger.py` is dropped, and every `await logger.*` call becomes nothing.
- `load_locale` is not modelled: reading a JSON file is I/O. `Localization` starts from a given document.
- `str.format` is a parameter of `GetText`, because Python's formatting language is not modelled. The parameter is a total function, so the `KeyError`, `IndexError` or `ValueError` that `format` can raise out of `get_text` is not modelled.
- The embed's title, colour, timestamp, author, thumbnail and footer are not modelled (func.py:169-174); the announcement is its two fields. The line templates of `_build_participant_list` are not modelled either, so the embed builders and the two updates look up no localised text. A `get_text` failure before `value = 1` (func.py:79) or inside an update (func.py:112, 140) therefore cannot happen in the model.
- The invite link and the `views` button are not stored: `CreateInvite` only decides success. views.py is not part of this model.
- `update_comment_message` and `update_participants_message` read the embed at `message.embeds[0]`. The model takes the fetched message to be that one embed. A message without embeds is not represented.
- The model assumes the platform cache is consistent. The joining side reads the channel as the world left it after the leaving side. The platform's cached objects could be staler than that.
- A channel that is not a voice channel is not modelled as such; it is an id absent from the voice channels of the world. A deleted channel is treated the same way.
- `src/utils/config.py` has no category fields. The model's `Config` carries the three category ids that `autoroomer.py` reads, as optional ids.
- Bot start-up and the cog's `setup` function are not part of this model: main.py and src/cogs/Test.py.
- `MoveTo` puts the moved member last in the channel's member list. The order discord.py gives `VoiceChannel.members` comes from its voice-state cache and is not modelled, so the order of the roster lines is an assumption.
- Ids are unbounded integers, as Python's are. Discord's 64-bit snowflake range is not enforced.
