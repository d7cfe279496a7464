/**
 * The chat platform as the bot sees it, reduced to a value.
 *
 * A `World` holds the guild's voice channels (category, members in join order,
 * user limit, members granted operator permissions), the guild's categories,
 * the guild's text channels and the messages of the announcement channel.
 * Every platform call the bot makes is a function from a world to a new world
 * and an outcome. Call number `calls` fails with `faults[calls]` when that key
 * is present, which covers permission errors and server errors on any call;
 * "not found" also follows from the state itself (a deleted message or
 * channel). Identifiers of new channels and messages come from `nextId`.
 */
module Platform {
  import opened Wrappers

  /** The three kinds of failure the bot tells apart. */
  datatype ApiError = NotFound | Forbidden | HttpError

  datatype VoiceChannel = VoiceChannel(
    name: string,
    category: Option<int>,
    members: seq<int>,
    userLimit: nat,
    operators: set<int>)

  /** One line of the roster field: an occupied slot or a free one. */
  datatype Line = Participant(userId: int, suffix: string) | FreeSlot

  /** A field of the announcement embed, with its rendering abstracted. */
  datatype Field = RosterField(lines: seq<Line>) | CommentField(comment: string)

  datatype Embed = Embed(fields: seq<Field>)

  datatype World = World(
    channels: map<int, VoiceChannel>,
    categories: set<int>,
    textChannels: set<int>,
    messages: map<int, Embed>,
    nextId: int,
    calls: nat,
    faults: map<nat, ApiError>)

  /** Every identifier the platform has handed out is below `nextId`. */
  ghost predicate WorldOk(w: World)
  {
    && (forall id | id in w.channels :: id < w.nextId)
    && (forall id | id in w.messages :: id < w.nextId)
  }

  /** The injected failure of the next call, if any. */
  function Fault(w: World): Option<ApiError>
  {
    if w.calls in w.faults then Some(w.faults[w.calls]) else None
  }

  /** The world after one more call has been made. */
  function Tick(w: World): World
  {
    w.(calls := w.calls + 1)
  }

  /** `discord.utils.get(guild.categories, id=...)`: a cache lookup, not a call. */
  function GetCategory(w: World, id: Option<int>): (r: Option<int>)
    ensures r.Some? <==> id.Some? && id.value in w.categories
    ensures r.Some? ==> r == id
  {
    if id.Some? && id.value in w.categories then id else None
  }

  /** `message_channel.fetch_message(id)`. */
  function FetchMessage(w: World, id: int): (r: (World, Result<Embed, ApiError>))
    ensures r.0 == Tick(w)
    ensures r.1.Success? <==> Fault(w).None? && id in w.messages
    ensures r.1.Success? ==> r.1.value == w.messages[id]
    ensures Fault(w).None? && id !in w.messages ==> r.1 == Failure(NotFound)
  {
    if Fault(w).Some? then (Tick(w), Failure(Fault(w).value))
    else if id !in w.messages then (Tick(w), Failure(NotFound))
    else (Tick(w), Success(w.messages[id]))
  }

  /** `msg.delete()`. */
  function DeleteMessage(w: World, id: int): (r: (World, Outcome<ApiError>))
    ensures r.1.Pass? <==> Fault(w).None? && id in w.messages
    ensures r.0 == Tick(w).(messages := if r.1.Pass? then w.messages - {id} else w.messages)
  {
    if Fault(w).Some? then (Tick(w), Fail(Fault(w).value))
    else if id !in w.messages then (Tick(w), Fail(NotFound))
    else (Tick(w).(messages := w.messages - {id}), Pass)
  }

  /** `msg.edit(embed=...)`. */
  function EditMessage(w: World, id: int, e: Embed): (r: (World, Outcome<ApiError>))
    ensures r.1.Pass? <==> Fault(w).None? && id in w.messages
    ensures r.0 == Tick(w).(messages := if r.1.Pass? then w.messages[id := e] else w.messages)
  {
    if Fault(w).Some? then (Tick(w), Fail(Fault(w).value))
    else if id !in w.messages then (Tick(w), Fail(NotFound))
    else (Tick(w).(messages := w.messages[id := e]), Pass)
  }

  /** `active_channel.send(embed=...)` on the announcement channel. */
  function SendMessage(w: World, e: Embed): (r: (World, Result<int, ApiError>))
    ensures r.1.Success? <==> Fault(w).None?
    ensures r.1.Success? ==> r.1.value == w.nextId
    ensures r.1.Success? ==> r.0 == Tick(w).(messages := w.messages[w.nextId := e], nextId := w.nextId + 1)
    ensures r.1.Failure? ==> r.0 == Tick(w)
    ensures WorldOk(w) ==> WorldOk(r.0)
  {
    if Fault(w).Some? then (Tick(w), Failure(Fault(w).value))
    else (Tick(w).(messages := w.messages[w.nextId := e], nextId := w.nextId + 1), Success(w.nextId))
  }

  /** `channel.create_invite()`: the invite itself is not kept. */
  function CreateInvite(w: World, chId: int): (r: (World, Outcome<ApiError>))
    ensures r.0 == Tick(w)
    ensures r.1.Pass? <==> Fault(w).None? && chId in w.channels
  {
    if Fault(w).Some? then (Tick(w), Fail(Fault(w).value))
    else if chId !in w.channels then (Tick(w), Fail(NotFound))
    else (Tick(w), Pass)
  }

  /** `channel.edit(category=...)`; a `None` category takes the channel out of any category. */
  function EditCategory(w: World, chId: int, category: Option<int>): (r: (World, Outcome<ApiError>))
    ensures r.1.Pass? <==> Fault(w).None? && chId in w.channels
    ensures r.0 == Tick(w).(channels :=
      if r.1.Pass? then w.channels[chId := w.channels[chId].(category := category)] else w.channels)
    ensures r.0.channels.Keys == w.channels.Keys
  {
    if Fault(w).Some? then (Tick(w), Fail(Fault(w).value))
    else if chId !in w.channels then (Tick(w), Fail(NotFound))
    else (Tick(w).(channels := w.channels[chId := w.channels[chId].(category := category)]), Pass)
  }

  /** `channel.delete()`. */
  function DeleteChannel(w: World, chId: int): (r: (World, Outcome<ApiError>))
    ensures r.1.Pass? <==> Fault(w).None? && chId in w.channels
    ensures r.0 == Tick(w).(channels := if r.1.Pass? then w.channels - {chId} else w.channels)
  {
    if Fault(w).Some? then (Tick(w), Fail(Fault(w).value))
    else if chId !in w.channels then (Tick(w), Fail(NotFound))
    else (Tick(w).(channels := w.channels - {chId}), Pass)
  }

  /** `guild.create_voice_channel(name=..., category=..., user_limit=...)`: a new, empty channel. */
  function CreateVoiceChannel(w: World, name: string, category: Option<int>, userLimit: nat)
    : (r: (World, Result<int, ApiError>))
    ensures r.1.Success? <==> Fault(w).None?
    ensures r.1.Success? ==> r.1.value == w.nextId
    ensures r.1.Success? ==> r.0 == Tick(w).(
      channels := w.channels[w.nextId := VoiceChannel(name, category, [], userLimit, {})],
      nextId := w.nextId + 1)
    ensures r.1.Failure? ==> r.0 == Tick(w)
    ensures WorldOk(w) ==> WorldOk(r.0)
  {
    if Fault(w).Some? then (Tick(w), Failure(Fault(w).value))
    else
      (Tick(w).(channels := w.channels[w.nextId := VoiceChannel(name, category, [], userLimit, {})],
                nextId := w.nextId + 1),
       Success(w.nextId))
  }

  /** `channel.set_permissions(member, connect=True, mute_members=True, move_members=True)`. */
  function SetPermissions(w: World, chId: int, member: int): (r: (World, Outcome<ApiError>))
    ensures r.1.Pass? <==> Fault(w).None? && chId in w.channels
    ensures r.0 == Tick(w).(channels :=
      if r.1.Pass? then w.channels[chId := w.channels[chId].(operators := w.channels[chId].operators + {member})]
      else w.channels)
  {
    if Fault(w).Some? then (Tick(w), Fail(Fault(w).value))
    else if chId !in w.channels then (Tick(w), Fail(NotFound))
    else
      var ch := w.channels[chId];
      (Tick(w).(channels := w.channels[chId := ch.(operators := ch.operators + {member})]), Pass)
  }

  /** `s` with every occurrence of `m` removed. */
  function Without(s: seq<int>, m: int): (r: seq<int>)
    ensures forall x :: x in r <==> x in s && x != m
  {
    if s == [] then [] else (if s[0] == m then [] else [s[0]]) + Without(s[1..], m)
  }

  /** `member.move_to(channel)`: the member leaves every voice channel and joins `chId` last. */
  function MoveTo(w: World, member: int, chId: int): (r: (World, Outcome<ApiError>))
    ensures r.1.Pass? <==> Fault(w).None? && chId in w.channels
    ensures r.1.Fail? ==> r.0 == Tick(w)
    ensures r.0.channels.Keys == w.channels.Keys
    ensures r.1.Pass? ==> r.0.channels[chId].members == Without(w.channels[chId].members, member) + [member]
    ensures r.1.Pass? ==> forall k | k in w.channels && k != chId ::
      member !in r.0.channels[k].members
  {
    if Fault(w).Some? then (Tick(w), Fail(Fault(w).value))
    else if chId !in w.channels then (Tick(w), Fail(NotFound))
    else
      var left := map k | k in w.channels :: w.channels[k].(members := Without(w.channels[k].members, member));
      (Tick(w).(channels := left[chId := left[chId].(members := left[chId].members + [member])]), Pass)
  }
}
