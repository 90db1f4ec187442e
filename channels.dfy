/**
 * Channel construction and mentions (lib/structures/Channel.ts).
 *
 * The numeric channel types are Discord's (`ChannelTypes` of
 * lib/Constants.ts, which is not part of this model).
 */
module Channels {
  import opened Wrappers

  const GUILD_TEXT: int := 0
  const DM: int := 1
  const GUILD_VOICE: int := 2
  const GROUP_DM: int := 3
  const GUILD_CATEGORY: int := 4
  const GUILD_NEWS: int := 5
  const GUILD_NEWS_THREAD: int := 10
  const GUILD_PUBLIC_THREAD: int := 11
  const GUILD_PRIVATE_THREAD: int := 12
  const GUILD_STAGE_VOICE: int := 13

  /** The types `Channel.from` gives a class of their own. */
  const SpecificTypes: set<int> := {GUILD_TEXT, DM, GUILD_VOICE, GROUP_DM, GUILD_CATEGORY, GUILD_NEWS,
                                    GUILD_NEWS_THREAD, GUILD_PUBLIC_THREAD, GUILD_PRIVATE_THREAD, GUILD_STAGE_VOICE}

  /** The class a channel is constructed as. */
  datatype ChannelClass =
    | TextChannel | PrivateChannel | VoiceChannel | GroupChannel | CategoryChannel | NewsChannel
    | NewsThreadChannel | PublicThreadChannel | PrivateThreadChannel | StageChannel
    | BaseChannel

  /** The fields of a raw channel this model reads. */
  datatype RawChannel = RawChannel(id: string, channelType: int)

  /** A constructed channel: its class, its id and its `type`. */
  datatype Channel = Channel(kind: ChannelClass, id: string, channelType: int)

  /** The type each specific class is constructed for; none for the base class. */
  function TypeOf(k: ChannelClass): (t: Option<int>)
    ensures t.Some? <==> k != BaseChannel
    ensures t.Some? ==> t.value in SpecificTypes
  {
    match k
    case TextChannel => Some(GUILD_TEXT)
    case PrivateChannel => Some(DM)
    case VoiceChannel => Some(GUILD_VOICE)
    case GroupChannel => Some(GROUP_DM)
    case CategoryChannel => Some(GUILD_CATEGORY)
    case NewsChannel => Some(GUILD_NEWS)
    case NewsThreadChannel => Some(GUILD_NEWS_THREAD)
    case PublicThreadChannel => Some(GUILD_PUBLIC_THREAD)
    case PrivateThreadChannel => Some(GUILD_PRIVATE_THREAD)
    case StageChannel => Some(GUILD_STAGE_VOICE)
    case BaseChannel => None
  }

  /** The `switch` of Channel.ts:28-40. */
  function ClassFor(channelType: int): ChannelClass {
    if channelType == GUILD_TEXT then TextChannel
    else if channelType == DM then PrivateChannel
    else if channelType == GUILD_VOICE then VoiceChannel
    else if channelType == GROUP_DM then GroupChannel
    else if channelType == GUILD_CATEGORY then CategoryChannel
    else if channelType == GUILD_NEWS then NewsChannel
    else if channelType == GUILD_NEWS_THREAD then NewsThreadChannel
    else if channelType == GUILD_PUBLIC_THREAD then PublicThreadChannel
    else if channelType == GUILD_PRIVATE_THREAD then PrivateThreadChannel
    else if channelType == GUILD_STAGE_VOICE then StageChannel
    else BaseChannel
  }

  /**
   * `Channel.from`: every raw channel yields a channel, of the class made
   * for its type when there is one and of the base class otherwise; the
   * constructor copies the id and the type.
   */
  function From(data: RawChannel): (c: Channel)
    ensures c.id == data.id && c.channelType == data.channelType
    ensures data.channelType in SpecificTypes ==> TypeOf(c.kind) == Some(data.channelType)
    ensures data.channelType !in SpecificTypes ==> c.kind == BaseChannel
  {
    Channel(ClassFor(data.channelType), data.id, data.channelType)
  }

  /** Each specific class is what `from` builds for its own type, and only for it. */
  lemma ClassForInvertsTypeOf(k: ChannelClass, t: int)
    requires k != BaseChannel
    ensures ClassFor(t) == k <==> TypeOf(k) == Some(t)
  {
  }

  /** Distinct specific types give distinct classes. */
  lemma FromIsInjectiveOnSpecificTypes(a: RawChannel, b: RawChannel)
    requires a.channelType in SpecificTypes && b.channelType in SpecificTypes
    ensures From(a).kind == From(b).kind <==> a.channelType == b.channelType
  {
    assert TypeOf(From(a).kind) == Some(a.channelType);
    assert TypeOf(From(b).kind) == Some(b.channelType);
  }

  /** The `mention` getter (Channel.ts:47-49). */
  function Mention(id: string): (m: string)
    ensures |m| == |id| + 3
    ensures m[..2] == "<#" && m[2..|m| - 1] == id && m[|m| - 1] == '>'
  {
    "<#" + id + ">"
  }
}
