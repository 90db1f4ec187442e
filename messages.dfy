/**
 * Messages and their partial updates (lib/structures/Message.ts).
 *
 * Values the model only stores (embeds, components, the activity, sticker
 * items) are kept as their JSON text. Users, roles and attachments are
 * identified by their ids.
 */
module Messages {
  import opened Wrappers
  import Routes
  import Channels

  // ---------------------------------------------------------------------
  // Channel mentions in message content
  // ---------------------------------------------------------------------

  /**
   * The length of the digits of a `<#` + 17-21 digits + `>` match at the
   * start of `s`, or 0 when none starts there. The digit run before `>`
   * must be the whole run, since `>` is not a digit.
   */
  function MentionAt(s: string): (n: nat)
    ensures n != 0 ==> 17 <= n <= 21 && n + 3 <= |s|
  {
    if |s| >= 2 && s[0] == '<' && s[1] == '#' then
      var run := Routes.DigitRun(s[2..]);
      if 17 <= run <= 21 && run + 2 < |s| && s[run + 2] == '>' then run else 0
    else 0
  }

  /**
   * `(content.match(/<#[\d]{17,21}>/g) || []).map(m => m.slice(2, -1))`:
   * the ids of the non-overlapping channel mentions, left to right. Each
   * mention takes at least 20 characters of the content.
   */
  function ChannelMentions(content: string): (ids: seq<string>)
    ensures 20 * |ids| <= |content|
    decreases |content|
  {
    if content == [] then []
    else
      var n := MentionAt(content);
      if n != 0 then [content[2..n + 2]] + ChannelMentions(content[n + 3..])
      else ChannelMentions(content[1..])
  }

  /** A match is `<#`, its digits and `>`. */
  lemma MentionAtShape(s: string)
    requires MentionAt(s) != 0
    ensures s[..2] == "<#" && Routes.AllDigits(s[2..MentionAt(s) + 2]) && s[MentionAt(s) + 2] == '>'
  {
    var n := MentionAt(s);
    assert n == Routes.DigitRun(s[2..]);
    assert forall k :: 0 <= k < n ==> s[2..n + 2][k] == s[2..][k];
  }

  /** Every extracted id is 17 to 21 digits. */
  lemma {:induction false} ChannelMentionsAreIds(content: string)
    ensures forall i :: 0 <= i < |ChannelMentions(content)| ==>
      17 <= |ChannelMentions(content)[i]| <= 21 && Routes.AllDigits(ChannelMentions(content)[i])
    decreases |content|
  {
    if content != [] {
      var n := MentionAt(content);
      if n != 0 {
        MentionAtShape(content);
        ChannelMentionsAreIds(content[n + 3..]);
      } else {
        ChannelMentionsAreIds(content[1..]);
      }
    }
  }

  /** `w` appears in `s` from position `j`. */
  predicate OccursAt(w: string, s: string, j: int) {
    0 <= j && j + |w| <= |s| && s[j..j + |w|] == w
  }

  /** `w` appears somewhere in `s`. */
  ghost predicate OccursIn(w: string, s: string) {
    exists j :: OccursAt(w, s, j)
  }

  /** What appears in a suffix appears in the whole. */
  lemma OccursInSuffix(w: string, s: string, k: nat)
    requires k <= |s| && OccursIn(w, s[k..])
    ensures OccursIn(w, s)
  {
    var j :| OccursAt(w, s[k..], j);
    assert s[k + j..k + j + |w|] == s[k..][j..j + |w|];
    assert OccursAt(w, s, k + j);
  }

  /** Every extracted id comes from a `<#` + id + `>` written in the content. */
  lemma {:induction false} ChannelMentionsOccur(content: string)
    ensures forall i :: 0 <= i < |ChannelMentions(content)| ==>
      OccursIn("<#" + ChannelMentions(content)[i] + ">", content)
    decreases |content|
  {
    if content != [] {
      var n := MentionAt(content);
      var ids := ChannelMentions(content);
      var skip := if n != 0 then n + 3 else 1;
      var rest := content[skip..];
      ChannelMentionsOccur(rest);
      forall i | 0 <= i < |ids|
        ensures OccursIn("<#" + ids[i] + ">", content)
      {
        if n != 0 && i == 0 {
          MentionAtShape(content);
          assert ids[0] == content[2..n + 2];
          assert content[0..n + 3] == content[..2] + content[2..n + 2] + [content[n + 2]];
          assert OccursAt("<#" + ids[0] + ">", content, 0);
        } else {
          assert ids[i] == ChannelMentions(rest)[if n != 0 then i - 1 else i];
          OccursInSuffix("<#" + ids[i] + ">", content, skip);
        }
      }
    }
  }

  /** The digits of a mention are found again when the mention opens the content. */
  lemma MentionAtOfMention(id: string, rest: string)
    requires 17 <= |id| <= 21 && Routes.AllDigits(id)
    ensures MentionAt(Channels.Mention(id) + rest) == |id|
  {
    var s := Channels.Mention(id) + rest;
    assert s[2..] == id + ([">"[0]] + rest);
    assert Routes.DigitRun(s[2..]) == |id| by {
      DigitRunThenStop(id, [">"[0]] + rest);
    }
  }

  lemma {:induction false} DigitRunThenStop(digits: string, rest: string)
    requires Routes.AllDigits(digits) && rest != [] && !Routes.IsDigit(rest[0])
    ensures Routes.DigitRun(digits + rest) == |digits|
    decreases |digits|
  {
    assert (digits + rest)[0] == digits[0];
    if |digits| > 1 {
      assert (digits + rest)[1..] == digits[1..] + rest;
      DigitRunThenStop(digits[1..], rest);
    } else {
      assert (digits + rest)[1..] == rest;
    }
  }

  /** One step of the scan at a match of `id`, followed by `rest`. */
  lemma ScanStep(s: string, id: string, rest: string)
    requires MentionAt(s) == |id| != 0
    requires s[2..|id| + 2] == id && s[|id| + 3..] == rest
    ensures ChannelMentions(s) == [id] + ChannelMentions(rest)
  {
  }

  /** A channel's `mention`, followed by anything, contributes exactly its id first. */
  lemma MentionThenRest(id: string, rest: string)
    requires 17 <= |id| <= 21 && Routes.AllDigits(id)
    ensures ChannelMentions(Channels.Mention(id) + rest) == [id] + ChannelMentions(rest)
  {
    MentionParts(id, rest);
    MentionAtOfMention(id, rest);
    ScanStep(Channels.Mention(id) + rest, id, rest);
  }

  lemma MentionParts(id: string, rest: string)
    ensures (Channels.Mention(id) + rest)[2..|id| + 2] == id
    ensures (Channels.Mention(id) + rest)[|id| + 3..] == rest
  {
    var m := Channels.Mention(id);
    var s := m + rest;
    assert forall k :: 2 <= k < |id| + 2 ==> s[k] == m[k];
  }

  /** Extracting the channel mentions of a channel's `mention` gives back its id. */
  lemma MentionRoundTrip(id: string)
    requires 17 <= |id| <= 21 && Routes.AllDigits(id)
    ensures ChannelMentions(Channels.Mention(id)) == [id]
  {
    MentionThenRest(id, "");
    assert Channels.Mention(id) + "" == Channels.Mention(id);
  }

  /** The mentions of a list of channel ids, written one after the other. */
  function MentionAll(ids: seq<string>): (s: string)
    ensures |s| == |ids| * 3 + SumLengths(ids)
  {
    if ids == [] then "" else Channels.Mention(ids[0]) + MentionAll(ids[1..])
  }

  function SumLengths(ids: seq<string>): nat {
    if ids == [] then 0 else |ids[0]| + SumLengths(ids[1..])
  }

  /** Content made of channel mentions yields exactly their ids, in order. */
  lemma {:induction false} MentionAllRoundTrip(ids: seq<string>)
    requires forall i :: 0 <= i < |ids| ==> 17 <= |ids[i]| <= 21 && Routes.AllDigits(ids[i])
    ensures ChannelMentions(MentionAll(ids)) == ids
  {
    if ids != [] {
      MentionThenRest(ids[0], MentionAll(ids[1..]));
      MentionAllRoundTrip(ids[1..]);
    }
  }

  // ---------------------------------------------------------------------
  // Attachments
  // ---------------------------------------------------------------------

  /** An attachment, as received. */
  datatype Attachment = Attachment(id: string, filename: string, url: string)

  function IdsOf(raws: seq<Attachment>): (ids: set<string>)
    ensures forall i :: 0 <= i < |raws| ==> raws[i].id in ids
    ensures forall k :: k in ids ==> exists i :: 0 <= i < |raws| && raws[i].id == k
  {
    set i | 0 <= i < |raws| :: raws[i].id
  }

  lemma IdsOfSnoc(raws: seq<Attachment>)
    requires raws != []
    ensures IdsOf(raws) == IdsOf(raws[..|raws| - 1]) + {raws[|raws| - 1].id}
  {
    var init := raws[..|raws| - 1];
    assert forall i :: 0 <= i < |init| ==> init[i] == raws[i];
  }

  /** Message.ts:142-144: drop every attachment whose id is not among `ids`. */
  function KeepOnly(m: map<string, Attachment>, ids: set<string>): (r: map<string, Attachment>)
    ensures r.Keys == m.Keys * ids
    ensures forall k :: k in r ==> r[k] == m[k]
  {
    map k | k in m && k in ids :: m[k]
  }

  /** Message.ts:145 (and :110): `attachments.update` of each raw attachment in turn. */
  function Upsert(m: map<string, Attachment>, raws: seq<Attachment>): (r: map<string, Attachment>)
    ensures r.Keys == m.Keys + IdsOf(raws)
    decreases |raws|
  {
    if raws == [] then m
    else
      var last := raws[|raws| - 1];
      IdsOfSnoc(raws);
      Upsert(m, raws[..|raws| - 1])[last.id := last]
  }

  lemma UpsertStep(m: map<string, Attachment>, raws: seq<Attachment>, i: nat)
    requires i < |raws|
    ensures Upsert(m, raws[..i + 1]) == Upsert(m, raws[..i])[raws[i].id := raws[i]]
  {
    assert raws[..i + 1][..i] == raws[..i];
  }

  /** Message.ts:141-146: the attachments after an update that lists `raws`. */
  function Reconcile(m: map<string, Attachment>, raws: seq<Attachment>): (r: map<string, Attachment>)
    ensures r.Keys == IdsOf(raws)
  {
    Upsert(KeepOnly(m, IdsOf(raws)), raws)
  }

  /** Each listed id maps to the last attachment listed with it. */
  lemma {:induction false} UpsertLastWins(m: map<string, Attachment>, raws: seq<Attachment>, i: nat)
    requires i < |raws|
    requires forall j :: i < j < |raws| ==> raws[j].id != raws[i].id
    ensures Upsert(m, raws)[raws[i].id] == raws[i]
    decreases |raws|
  {
    if i < |raws| - 1 {
      var init := raws[..|raws| - 1];
      assert init[i] == raws[i];
      UpsertLastWins(m, init, i);
    }
  }

  /** An id no raw attachment carries keeps its old value. */
  lemma {:induction false} UpsertKeepsOthers(m: map<string, Attachment>, raws: seq<Attachment>, k: string)
    requires k !in IdsOf(raws) && k in m
    ensures Upsert(m, raws)[k] == m[k]
    decreases |raws|
  {
    if raws != [] {
      IdsOfSnoc(raws);
      UpsertKeepsOthers(m, raws[..|raws| - 1], k);
    }
  }

  /** `raws[i]` is the last entry listed with its ID. */
  predicate LastListed(raws: seq<Attachment>, i: int) {
    0 <= i < |raws| && forall j :: i < j < |raws| ==> raws[j].id != raws[i].id
  }

  lemma ReconcileValues(m: map<string, Attachment>, raws: seq<Attachment>, i: nat)
    requires i < |raws|
    requires forall j :: i < j < |raws| ==> raws[j].id != raws[i].id
    ensures Reconcile(m, raws)[raws[i].id] == raws[i]
  {
    UpsertLastWins(KeepOnly(m, IdsOf(raws)), raws, i);
  }

  /** The value of a listed id depends only on the list, not on the map it is applied to. */
  lemma {:induction false} UpsertListedIgnoresStart(m1: map<string, Attachment>, m2: map<string, Attachment>,
                                                    raws: seq<Attachment>, k: string)
    requires k in IdsOf(raws)
    ensures Upsert(m1, raws)[k] == Upsert(m2, raws)[k]
    decreases |raws|
  {
    var last := raws[|raws| - 1];
    if last.id != k {
      IdsOfSnoc(raws);
      UpsertListedIgnoresStart(m1, m2, raws[..|raws| - 1], k);
    }
  }

  /** Delivering the same attachment list twice leaves the map as delivering it once. */
  lemma ReconcileIdempotent(m: map<string, Attachment>, raws: seq<Attachment>)
    ensures Reconcile(Reconcile(m, raws), raws) == Reconcile(m, raws)
  {
    var once := Reconcile(m, raws);
    var twice := Reconcile(once, raws);
    forall k | k in twice
      ensures twice[k] == once[k]
    {
      UpsertListedIgnoresStart(KeepOnly(once, IdsOf(raws)), KeepOnly(m, IdsOf(raws)), raws, k);
    }
  }

  /** Message.ts:142-144: delete every attachment whose id no entry of `raws` carries. */
  method DropStale(m: map<string, Attachment>, raws: seq<Attachment>) returns (r: map<string, Attachment>)
    ensures r == KeepOnly(m, IdsOf(raws))
  {
    r := m;
    var visit := m.Keys;
    while visit != {}
      invariant visit <= m.Keys
      invariant r == map k | k in m && (k in visit || k in IdsOf(raws)) :: m[k]
      decreases visit
    {
      var key :| key in visit;
      if !exists i :: 0 <= i < |raws| && raws[i].id == key {
        r := r - {key};
      }
      visit := visit - {key};
    }
  }

  /** Message.ts:145 (and :110): `attachments.update` of each raw attachment, in order. */
  method UpsertAll(m: map<string, Attachment>, raws: seq<Attachment>) returns (r: map<string, Attachment>)
    ensures r == Upsert(m, raws)
  {
    r := m;
    for i := 0 to |raws|
      invariant r == Upsert(m, raws[..i])
    {
      UpsertStep(m, raws, i);
      r := r[raws[i].id := raws[i]];
    }
    assert raws[..|raws|] == raws;
  }

  // ---------------------------------------------------------------------
  // Messages
  // ---------------------------------------------------------------------

  type Json = string

  datatype Nonce = NumberNonce(n: int) | StringNonce(s: string)

  datatype MessageReference = MessageReference(channelID: Option<string>, failIfNotExists: Option<bool>,
                                               guildID: Option<string>, messageID: Option<string>)

  /** `referencedMessage`: not set, explicitly null, or the referenced message (by id). */
  datatype Referenced = Unset | NullReference | Referenced(messageID: string)

  /**
   * A partial raw message. `None` is an absent key. For `editedTimestamp`
   * and `referencedMessage`, `Some(None)` is an explicit `null`; `messageReference`
   * is read for truthiness, so an explicit `null` is `None` too.
   */
  datatype MessageData = MessageData(
    id: string,
    webhookID: Option<string>,
    timestamp: string,
    tts: bool,
    messageType: int,
    mentionEveryone: Option<bool>,
    mentionRoles: Option<seq<string>>,
    mentions: Option<seq<string>>,
    activity: Option<Json>,
    attachments: Option<seq<Attachment>>,
    components: Option<seq<Json>>,
    content: Option<string>,
    editedTimestamp: Option<Option<string>>,
    embeds: Option<seq<Json>>,
    flags: Option<int>,
    messageReference: Option<MessageReference>,
    nonce: Option<Nonce>,
    pinned: Option<bool>,
    position: Option<int>,
    referencedMessage: Option<Option<string>>,
    stickerItems: Option<seq<Json>>)

  /** The webhook message call a message forwards to (Message.ts:203, :226). */
  datatype WebhookOp = DeleteMessage | EditMessage
  datatype WebhookCall = WebhookCall(op: WebhookOp, webhookID: string, token: string, messageID: string)

  /** `mentions`: the ids of the mentioned channels, roles and users, and `@everyone`. */
  datatype Mentions = Mentions(channels: seq<string>, everyone: bool, roles: seq<string>, users: seq<string>)

  /** The value `edited_timestamp` gives the field: a timestamp, or null for null or "". */
  function EditedTimestamp(t: Option<string>): (r: Option<string>)
    ensures r.Some? <==> t.Some? && t.value != ""
    ensures r.Some? ==> r == t
  {
    if t.Some? && t.value != "" then t else None
  }

  /** The value `referenced_message` gives the field: null, or the message it carries. */
  function ReferenceTo(m: Option<string>): (r: Referenced)
    ensures r != Unset
    ensures r.NullReference? <==> m.None?
    ensures r.Referenced? ==> m == Some(r.messageID)
  {
    match m
    case None => NullReference
    case Some(id) => Referenced(id)
  }

  /** `edited_timestamp` applied when present. */
  function EditedAfter(t: Option<Option<string>>, current: Option<string>): Option<string> {
    if t.Some? then EditedTimestamp(t.value) else current
  }

  /** `referenced_message` applied when present. */
  function ReferenceAfter(m: Option<Option<string>>, current: Referenced): Referenced {
    if m.Some? then ReferenceTo(m.value) else current
  }

  /** `attachments` reconciled when present. */
  function AttachmentsAfter(current: map<string, Attachment>, raws: Option<seq<Attachment>>): map<string, Attachment> {
    if raws.Some? then Reconcile(current, raws.value) else current
  }

  /** The channel mentions of new content, when there is new content. */
  function ChannelsAfter(content: Option<string>, current: seq<string>): seq<string> {
    if content.Some? then ChannelMentions(content.value) else current
  }

  class Message {
    const id: string
    const timestamp: string
    const tts: bool
    const messageType: int
    const webhookID: Option<string>
    var activity: Option<Json>
    var attachments: map<string, Attachment>
    var components: Option<seq<Json>>
    var content: string
    var editedTimestamp: Option<string>
    var embeds: seq<Json>
    var flags: Option<int>
    var mentions: Mentions
    var messageReference: Option<MessageReference>
    var nonce: Option<Nonce>
    var pinned: bool
    var position: Option<int>
    var referencedMessage: Referenced
    var stickerItems: Option<seq<Json>>

    /**
     * Message.ts:102-127. The keys a full raw message always carries are
     * required; the mentions start empty and `everyone` false, then
     * `update` applies the data.
     */
    constructor (data: MessageData)
      requires data.content.Some? && data.embeds.Some? && data.pinned.Some?
      ensures id == data.id && webhookID == data.webhookID
      ensures timestamp == data.timestamp && tts == data.tts && messageType == data.messageType
      ensures content == data.content.value
      ensures mentions == Mentions(ChannelMentions(data.content.value), data.mentionEveryone.GetOr(false),
                                   data.mentionRoles.GetOr([]), data.mentions.GetOr([]))
      ensures data.attachments.Some? ==> attachments.Keys == IdsOf(data.attachments.value)
      ensures data.attachments.Some? ==>
        attachments == Reconcile(Upsert(map[], data.attachments.value), data.attachments.value)
      ensures data.attachments.Some? ==> forall i :: LastListed(data.attachments.value, i) ==>
        attachments[data.attachments.value[i].id] == data.attachments.value[i]
      ensures data.attachments.None? ==> attachments == map[]
      ensures embeds == data.embeds.value && pinned == data.pinned.value
      ensures activity == data.activity && components == data.components && stickerItems == data.stickerItems
      ensures flags == data.flags && position == data.position && nonce == data.nonce
      ensures messageReference == data.messageReference
      ensures editedTimestamp == EditedAfter(data.editedTimestamp, None)
      ensures referencedMessage == ReferenceAfter(data.referencedMessage, Unset)
    {
      id := data.id;
      timestamp := data.timestamp;
      tts := data.tts;
      messageType := data.messageType;
      webhookID := data.webhookID;
      attachments := map[];
      mentions := Mentions([], false, [], []);
      content := "";
      embeds := [];
      pinned := false;
      editedTimestamp := None;
      referencedMessage := Unset;
      activity := None;
      components := None;
      flags := None;
      messageReference := None;
      nonce := None;
      position := None;
      stickerItems := None;
      new;
      if data.attachments.Some? {
        attachments := UpsertAll(attachments, data.attachments.value);
      }
      Update(data);
      if data.attachments.Some? {
        var raws := data.attachments.value;
        forall i | LastListed(raws, i)
          ensures attachments[raws[i].id] == raws[i]
        {
          ReconcileValues(Upsert(map[], raws), raws, i);
        }
      }
    }

    /** Message.ts:129-192: apply the keys present in `data`; absent keys leave their field alone. */
    method Update(data: MessageData)
      modifies this
      ensures mentions == Mentions(ChannelsAfter(data.content, old(mentions.channels)),
                                   data.mentionEveryone.GetOr(old(mentions.everyone)),
                                   data.mentionRoles.GetOr(old(mentions.roles)),
                                   data.mentions.GetOr(old(mentions.users)))
      ensures activity == data.activity.Or(old(activity))
      ensures attachments == AttachmentsAfter(old(attachments), data.attachments)
      ensures components == data.components.Or(old(components))
      ensures content == data.content.GetOr(old(content))
      ensures editedTimestamp == EditedAfter(data.editedTimestamp, old(editedTimestamp))
      ensures embeds == data.embeds.GetOr(old(embeds))
      ensures flags == data.flags.Or(old(flags))
      ensures messageReference == data.messageReference.Or(old(messageReference))
      ensures nonce == data.nonce.Or(old(nonce))
      ensures pinned == data.pinned.GetOr(old(pinned))
      ensures position == data.position.Or(old(position))
      ensures referencedMessage == ReferenceAfter(data.referencedMessage, old(referencedMessage))
      ensures stickerItems == data.stickerItems.Or(old(stickerItems))
    {
      UpdateMentionsAndContent(data);
      UpdateRest(data);
    }

    /** Message.ts:130-151. */
    method UpdateMentionsAndContent(data: MessageData)
      modifies this`mentions, this`activity, this`attachments, this`components, this`content
      ensures mentions == Mentions(ChannelsAfter(data.content, old(mentions.channels)),
                                   data.mentionEveryone.GetOr(old(mentions.everyone)),
                                   data.mentionRoles.GetOr(old(mentions.roles)),
                                   data.mentions.GetOr(old(mentions.users)))
      ensures activity == data.activity.Or(old(activity))
      ensures attachments == AttachmentsAfter(old(attachments), data.attachments)
      ensures components == data.components.Or(old(components))
      ensures content == data.content.GetOr(old(content))
    {
      UpdateMentions(data);
      UpdateAttachments(data);
      UpdateContent(data);
    }

    /** Message.ts:152-187. */
    method UpdateRest(data: MessageData)
      modifies this`editedTimestamp, this`embeds, this`flags, this`messageReference, this`nonce, this`pinned,
               this`position, this`referencedMessage, this`stickerItems
      ensures editedTimestamp == EditedAfter(data.editedTimestamp, old(editedTimestamp))
      ensures embeds == data.embeds.GetOr(old(embeds))
      ensures flags == data.flags.Or(old(flags))
      ensures messageReference == data.messageReference.Or(old(messageReference))
      ensures nonce == data.nonce.Or(old(nonce))
      ensures pinned == data.pinned.GetOr(old(pinned))
      ensures position == data.position.Or(old(position))
      ensures referencedMessage == ReferenceAfter(data.referencedMessage, old(referencedMessage))
      ensures stickerItems == data.stickerItems.Or(old(stickerItems))
    {
      UpdateEdits(data);
      UpdateReferences(data);
      UpdateThreadFields(data);
    }

    /** Message.ts:130-140. */
    method UpdateMentions(data: MessageData)
      modifies this`mentions, this`activity
      ensures mentions == Mentions(old(mentions.channels), data.mentionEveryone.GetOr(old(mentions.everyone)),
                                   data.mentionRoles.GetOr(old(mentions.roles)), data.mentions.GetOr(old(mentions.users)))
      ensures activity == data.activity.Or(old(activity))
    {
      if data.mentionEveryone.Some? { mentions := mentions.(everyone := data.mentionEveryone.value); }
      if data.mentionRoles.Some? { mentions := mentions.(roles := data.mentionRoles.value); }
      if data.mentions.Some? { mentions := mentions.(users := data.mentions.value); }
      if data.activity.Some? { activity := data.activity; }
    }

    /** Message.ts:141-147. */
    method UpdateAttachments(data: MessageData)
      modifies this`attachments, this`components
      ensures attachments == AttachmentsAfter(old(attachments), data.attachments)
      ensures components == data.components.Or(old(components))
    {
      if data.attachments.Some? {
        var kept := DropStale(attachments, data.attachments.value);
        attachments := UpsertAll(kept, data.attachments.value);
      }
      if data.components.Some? { components := data.components; }
    }

    /** Message.ts:148-151. */
    method UpdateContent(data: MessageData)
      modifies this`content, this`mentions
      ensures content == data.content.GetOr(old(content))
      ensures mentions == old(mentions).(channels := ChannelsAfter(data.content, old(mentions.channels)))
    {
      if data.content.Some? {
        content := data.content.value;
        mentions := mentions.(channels := ChannelMentions(data.content.value));
      }
    }

    /** Message.ts:152-154 (the interaction of :155-168 is not modelled). */
    method UpdateEdits(data: MessageData)
      modifies this`editedTimestamp, this`embeds, this`flags
      ensures editedTimestamp == EditedAfter(data.editedTimestamp, old(editedTimestamp))
      ensures embeds == data.embeds.GetOr(old(embeds))
      ensures flags == data.flags.Or(old(flags))
    {
      if data.editedTimestamp.Some? { editedTimestamp := EditedTimestamp(data.editedTimestamp.value); }
      if data.embeds.Some? { embeds := data.embeds.value; }
      if data.flags.Some? { flags := data.flags; }
    }

    /** Message.ts:169-178. */
    method UpdateReferences(data: MessageData)
      modifies this`messageReference, this`nonce, this`pinned
      ensures messageReference == data.messageReference.Or(old(messageReference))
      ensures nonce == data.nonce.Or(old(nonce))
      ensures pinned == data.pinned.GetOr(old(pinned))
    {
      if data.messageReference.Some? { messageReference := data.messageReference; }
      if data.nonce.Some? { nonce := data.nonce; }
      if data.pinned.Some? { pinned := data.pinned.value; }
    }

    /** Message.ts:179-187 (the thread of :188-191 is not modelled). */
    method UpdateThreadFields(data: MessageData)
      modifies this`position, this`referencedMessage, this`stickerItems
      ensures position == data.position.Or(old(position))
      ensures referencedMessage == ReferenceAfter(data.referencedMessage, old(referencedMessage))
      ensures stickerItems == data.stickerItems.Or(old(stickerItems))
    {
      if data.position.Some? { position := data.position; }
      if data.referencedMessage.Some? { referencedMessage := ReferenceTo(data.referencedMessage.value); }
      if data.stickerItems.Some? { stickerItems := data.stickerItems; }
    }

    /** Message.ts:201-204: only a webhook message can be deleted as one. */
    function DeleteWebhook(token: string): (r: Result<WebhookCall, string>)
      reads this
      ensures r.Failure? <==> webhookID.None? || webhookID.value == ""
      ensures r.Success? ==> r.value == WebhookCall(DeleteMessage, webhookID.value, token, id)
    {
      if webhookID.None? || webhookID.value == "" then Failure("This message is not a webhook message.")
      else Success(WebhookCall(DeleteMessage, webhookID.value, token, id))
    }

    /** Message.ts:224-227: only a webhook message can be edited as one. */
    function EditWebhook(token: string): (r: Result<WebhookCall, string>)
      reads this
      ensures r.Failure? <==> webhookID.None? || webhookID.value == ""
      ensures r.Success? ==> r.value == WebhookCall(EditMessage, webhookID.value, token, id)
    {
      if webhookID.None? || webhookID.value == "" then Failure("This message is not a webhook message.")
      else Success(WebhookCall(EditMessage, webhookID.value, token, id))
    }
  }
}
