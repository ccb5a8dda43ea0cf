/** Message content: the elements the SDK hands out, the wire oneof, and the two converters. */
module Content {
  import opened Prelude

  type u8 = n: int | 0 <= n < 0x100
  type i32 = n: int | -0x8000_0000 <= n < 0x8000_0000
  type i64 = n: int | -0x8000_0000_0000_0000 <= n < 0x8000_0000_0000_0000
  type u64 = n: int | 0 <= n < 0x1_0000_0000_0000_0000

  const I64_MAX: i64 := 0x7FFF_FFFF_FFFF_FFFF

  type Bytes = seq<u8>

  type Attributes = map<string, string>

  // ---------- JSON and the plugin envelope ----------

  /** `JOtherNumber` is a number that is no u64, by its spelling. */
  datatype Json =
    | JNull
    | JBool(flag: bool)
    | JNumber(n: u64)
    | JOtherNumber(spelling: string)
    | JString(text: string)
    | JArray(items: seq<Json>)
    | JObject(fields: map<string, Json>)

  /** A plugin card envelope that has passed validation. */
  datatype Envelope = Envelope(pluginId: string, summary: string, displayName: Option<string>)

  datatype Preview = Preview(k: string, a: map<string, Json>)

  /** The serde boundary: reading and writing JSON, and the wire numbers of the two animated image
      formats. */
  datatype Codec = Codec(
    write: map<string, Json> -> Bytes,
    readObject: Bytes -> Option<map<string, Json>>,
    readEnvelope: Bytes -> Option<Envelope>,
    readPreview: string -> Option<Preview>,
    readParams: string -> Option<map<string, Json>>,
    gif: i32,
    apng: i32)

  /** The values that the converters write: no other number than a u64, and arrays of strings only. */
  predicate Plain(j: Json) {
    j.JString? || j.JNumber? || j.JBool? || (j.JArray? && forall i :: 0 <= i < |j.items| ==> j.items[i].JString?)
  }

  predicate PlainObject(o: map<string, Json>) {
    forall k :: k in o ==> Plain(o[k])
  }

  /** What the converters write reads back. */
  ghost predicate Lawful(codec: Codec) {
    forall o :: PlainObject(o) ==> codec.readObject(codec.write(o)) == Some(o)
  }

  const MAX_ENVELOPE: nat := 65536

  const PLUGIN_TYPE := "flare.plugin.message.v1"

  function EnvelopeOf(codec: Codec, payload: Bytes): Option<Envelope> {
    if |payload| > MAX_ENVELOPE then None else codec.readEnvelope(payload)
  }

  // ---------- elements ----------

  datatype MentionElem = MentionElem(kind: i32, userId: string, userIds: seq<string>, roleId: string, start: i32, length: i32)

  datatype ImageInfoElem = ImageInfoElem(
    uuid: string, imageId: string, url: string, mimeType: string, size: i64, width: i32, height: i32,
    format: i32, animated: bool, blurhash: string)

  datatype VideoInfoElem = VideoInfoElem(
    uuid: string, url: string, mimeType: string, size: i64, durationMs: i64, width: i32, height: i32)

  datatype AudioInfoElem = AudioInfoElem(uuid: string, url: string, mimeType: string, size: i64, durationMs: i64)

  datatype ForwardItemElem = ForwardItemElem(
    sourceMessageId: Option<string>, sourceConversationId: Option<string>, sourceSenderId: Option<string>,
    sourceSenderName: Option<string>, sourceTimeMs: Option<u64>, messageType: i32, plainText: string,
    content: Option<Elem>)

  datatype Elem =
    | Text(text: string, mentions: seq<MentionElem>)
    | Image(imageSource: Option<ImageInfoElem>, thumbnail: Option<ImageInfoElem>, imageDescription: string, imageDurationMs: Option<i64>)
    | Video(videoId: string, videoSource: Option<VideoInfoElem>, cover: Option<ImageInfoElem>, videoDescription: string)
    | Audio(audioId: string, audioSource: Option<AudioInfoElem>, audioDescription: string)
    | File(fileId: string, fileName: string, fileMimeType: string, fileSize: i64, fileUrl: string, fileDescription: string)
    | Location(latitude: real, longitude: real, locationTitle: string, address: string, zoom: Option<u8>,
               snapshotUrl: Option<string>, snapshotLocalPath: Option<string>)
    | Card(cardType: string, cardId: string, cardTitle: string, cardSubtitle: string, avatar: string, cardExtra: Attributes)
    | Sticker(stickerId: string, packageId: string, stickerUrl: string, stickerWidth: i32, stickerHeight: i32,
              stickerFormat: string, stickerExtra: Attributes)
    | Emoji(emoji: string, emojiDescription: string, emojiExtra: Attributes)
    | Quote(quotedMessageId: string, quotedSenderId: string, quotedTextPreview: string,
            quotedContent: Option<Elem>, currentContent: Option<Elem>)
    | LinkCard(linkUrl: string, linkTitle: string, linkDescription: string, linkThumbnailUrl: string, siteName: string)
    | Forward(mode: i32, forwardTitle: Option<string>, items: seq<ForwardItemElem>)
    | Thread(threadId: string, threadTitle: string, rootContent: Option<Elem>, threadMetadata: Attributes)
    | MiniProgram(appId: string, miniTitle: string, pagePath: string, miniThumbnailUrl: string, miniExtra: Attributes)
    | RichText(docJson: string, contentSchema: string, richPlainText: string, inputFormat: Option<string>,
               inputFormatVersion: Option<i32>, sourcePayload: Attributes, richTitle: Option<string>,
               searchText: Option<string>, renderHintsJson: Option<string>)
    | ImageGroup(images: seq<ImageInfoElem>, groupDescription: string, groupMetadata: Attributes)
    | System(eventKind: string, systemBody: string, systemData: Attributes, systemPayload: Bytes)
    | Notification(notificationTitle: string, notificationBody: string, notificationType: string,
                   notificationData: Attributes, targetUserIds: seq<string>, targetRoleId: string,
                   notifyAll: bool, persistent: bool, showInList: bool, showBadge: bool, playSound: bool)
    | Vote(voteId: string, voteTitle: string, options: seq<string>, voteMetadata: Attributes, voteParticipants: seq<string>)
    | Task(taskId: string, taskTitle: string, status: string, taskMetadata: Attributes, taskParticipants: seq<string>)
    | Schedule(scheduleId: string, scheduleTitle: string, startTime: u64, endTime: u64, scheduleMetadata: Attributes,
               scheduleParticipants: seq<string>)
    | Announcement(announcementTitle: string, announcementBody: string, pinned: bool, announcementMetadata: Attributes)
    | Custom(customType: string, customPayload: Bytes, customDescription: string, customMetadata: Attributes)
    | Placeholder(reason: string, placeholderPayload: Bytes, fallbackText: string, placeholderMetadata: Attributes)

  // ---------- the wire ----------

  datatype Mention = Mention(kind: i32, userId: string, userIds: seq<string>, roleId: string, start: i32, length: i32)

  datatype ImageInfo = ImageInfo(
    uuid: string, imageId: string, url: string, mimeType: string, size: i64, width: i32, height: i32,
    format: i32, animated: bool, blurhash: string)

  datatype VideoInfo = VideoInfo(
    uuid: string, url: string, mimeType: string, size: i64, durationMs: i64, width: i32, height: i32)

  datatype AudioInfo = AudioInfo(uuid: string, url: string, mimeType: string, size: i64, durationMs: i64)

  datatype ForwardItem = ForwardItem(
    sourceMessageId: Option<string>, sourceConversationId: Option<string>, sourceSenderId: Option<string>,
    sourceSenderName: Option<string>, sourceCreatedAt: Option<i64>, messageType: i32, plainText: string,
    content: Option<MessageContent>)

  datatype AppCard = AppCard(
    appId: string, cardType: string, title: string, subtitle: string, summary: string, thumbnailUrl: string,
    payloadSchema: string, payload: Bytes, actions: seq<string>, attributes: Attributes)

  datatype MessageContent = MessageContent(content: Option<Proto>)

  datatype Proto =
    | PText(text: string, mentions: seq<Mention>)
    | PImage(source: Option<ImageInfo>, thumbnail: Option<ImageInfo>, description: string, durationMs: Option<i64>)
    | PVideo(videoId: string, videoSource: Option<VideoInfo>, cover: Option<ImageInfo>, videoDescription: string)
    | PAudio(audioId: string, audioSource: Option<AudioInfo>, audioDescription: string)
    | PFile(fileId: string, fileName: string, fileMimeType: string, fileSize: i64, fileUrl: string, fileDescription: string)
    | PLocation(longitude: real, latitude: real, address: string, locationTitle: string, zoom: Option<i32>,
                snapshotUrl: Option<string>, snapshotLocalPath: Option<string>)
    | PCard(cardType: string, cardId: string, cardTitle: string, cardSubtitle: string, avatar: string, cardAttributes: Attributes)
    | PSticker(stickerId: string, stickerUrl: string, stickerWidth: i32, stickerHeight: i32, stickerAttributes: Attributes,
               packageId: string, stickerFormat: string)
    | PEmoji(emoji: string, emojiDescription: string, emojiAttributes: Attributes)
    | PQuote(quotedMessageId: string, quotedSenderId: string, quotedTextPreview: string,
             quotedContent: Option<MessageContent>, currentContent: Option<MessageContent>)
    | PLinkCard(linkUrl: string, linkTitle: string, linkDescription: string, linkThumbnailUrl: string, siteName: string)
    | PForward(mode: i32, forwardTitle: Option<string>, items: seq<ForwardItem>)
    | PThread(threadId: string, threadTitle: string, rootContent: Option<MessageContent>, threadAttributes: Attributes)
    | PAppCard(card: AppCard)
    | PRichText(docJson: string, contentSchema: string, richPlainText: string, inputFormat: Option<string>,
                sourceAttributes: Attributes, inputFormatVersion: Option<i32>, richTitle: Option<string>,
                searchText: Option<string>, renderHintsJson: Option<string>)
    | PImageGroup(images: seq<ImageInfo>, groupDescription: string, groupAttributes: Attributes)
    | PSystem(eventKind: string, systemBody: string, systemAttributes: Attributes, systemPayload: Bytes)
    | PNotification(notificationTitle: string, notificationBody: string, notificationType: string,
                    notificationAttributes: Attributes, targetUserIds: seq<string>, targetRoleId: string,
                    notifyAll: bool, persistent: bool, showInList: bool, showBadge: bool, playSound: bool)
    | PCustom(customType: string, customPayload: Bytes, customDescription: string, customAttributes: Attributes)
    | PPlaceholder(reason: string, placeholderPayload: Bytes, fallbackText: string, placeholderAttributes: Attributes)

  // ---------- small conversions ----------

  function MsToU64(ms: i64): u64 { if ms > 0 then ms else 0 }

  function MsToI64(ms: u64): i64 { if ms <= I64_MAX then ms else I64_MAX }

  function Clamp8(z: i32): u8 { if z < 0 then 0 else if z > 255 then 255 else z }

  function MapOption<A, B>(f: A -> B, o: Option<A>): Option<B> {
    match o
    case None => None
    case Some(a) => Some(f(a))
  }

  function MapSeq<A, B>(f: A -> B, s: seq<A>): (r: seq<B>)
    ensures |r| == |s|
    ensures forall i :: 0 <= i < |s| ==> r[i] == f(s[i])
  {
    seq(|s|, i requires 0 <= i < |s| => f(s[i]))
  }

  function MentionIn(m: MentionElem): Mention { Mention(m.kind, m.userId, m.userIds, m.roleId, m.start, m.length) }

  function MentionOut(m: Mention): MentionElem { MentionElem(m.kind, m.userId, m.userIds, m.roleId, m.start, m.length) }

  function ImageIn(i: ImageInfoElem): ImageInfo {
    ImageInfo(i.uuid, i.imageId, i.url, i.mimeType, i.size, i.width, i.height, i.format, i.animated, i.blurhash)
  }

  function ImageOut(i: ImageInfo): ImageInfoElem {
    ImageInfoElem(i.uuid, i.imageId, i.url, i.mimeType, i.size, i.width, i.height, i.format, i.animated, i.blurhash)
  }

  function VideoIn(v: VideoInfoElem): VideoInfo {
    VideoInfo(v.uuid, v.url, v.mimeType, v.size, v.durationMs, v.width, v.height)
  }

  function VideoOut(v: VideoInfo): VideoInfoElem {
    VideoInfoElem(v.uuid, v.url, v.mimeType, v.size, v.durationMs, v.width, v.height)
  }

  function AudioIn(a: AudioInfoElem): AudioInfo { AudioInfo(a.uuid, a.url, a.mimeType, a.size, a.durationMs) }

  function AudioOut(a: AudioInfo): AudioInfoElem { AudioInfoElem(a.uuid, a.url, a.mimeType, a.size, a.durationMs) }

  // ---------- app cards ----------

  function NewCard(appId: string, cardType: string, title: string): AppCard {
    AppCard(appId, cardType, title, "", "", "", "", [], [], map[])
  }

  function WithJson(codec: Codec, card: AppCard, payload: map<string, Json>): AppCard {
    card.(payloadSchema := "json", payload := codec.write(payload))
  }

  function Strings(s: seq<string>): Json {
    JArray(MapSeq((t: string) => JString(t), s))
  }

  function PayloadOf(codec: Codec, card: AppCard): map<string, Json> {
    match codec.readObject(card.payload)
    case None => map[]
    case Some(o) => o
  }

  function Lookup(attributes: Attributes, key: string): Option<string> {
    if key in attributes then Some(attributes[key]) else None
  }

  function GetString(payload: map<string, Json>, key: string, fallback: Option<string>): string {
    if key in payload && payload[key].JString? then payload[key].text
    else if fallback.Some? then fallback.value
    else ""
  }

  /** The strings among the items of a JSON array. */
  function OnlyStrings(items: seq<Json>): seq<string> {
    if items == [] then []
    else (if items[0].JString? then [items[0].text] else []) + OnlyStrings(items[1..])
  }

  function Lines(s: string): seq<string> {
    var i := NewLine(s);
    if i == |s| then (if s == [] then [] else [s])
    else [s[..i]] + Lines(s[i + 1..])
  }

  function NewLine(s: string): (i: nat)
    ensures i <= |s|
  {
    if s == [] || s[0] == '\n' then 0 else 1 + NewLine(s[1..])
  }

  function NonBlank(lines: seq<string>): seq<string> {
    if lines == [] then []
    else (if Trim(lines[0]) == "" then [] else [Trim(lines[0])]) + NonBlank(lines[1..])
  }

  function GetStrings(payload: map<string, Json>, key: string, fallback: Option<string>): seq<string> {
    if key in payload && payload[key].JArray? then OnlyStrings(payload[key].items)
    else if fallback.Some? then NonBlank(Lines(fallback.value))
    else []
  }

  /** Rust `str::parse::<u64>`: an optional plus sign and decimal digits in range. */
  function ParseU64(s: string): Option<u64> {
    var digits := if s != [] && s[0] == '+' then s[1..] else s;
    if digits == [] || !(forall c :: c in digits ==> IsDigit(c)) then None
    else
      var n := DigitsValue(digits);
      if n < 0x1_0000_0000_0000_0000 then Some(n) else None
  }

  function DigitsValue(s: string): nat
    requires forall c :: c in s ==> IsDigit(c)
  {
    if s == [] then 0 else
      assert IsDigit(s[|s| - 1]);
      10 * DigitsValue(s[..|s| - 1]) + (s[|s| - 1] as int - '0' as int)
  }

  function GetU64(payload: map<string, Json>, key: string, fallback: Option<string>): u64 {
    if key in payload && payload[key].JNumber? then payload[key].n
    else if fallback.Some? && ParseU64(fallback.value).Some? then ParseU64(fallback.value).value
    else 0
  }

  function GetBool(payload: map<string, Json>, key: string, fallback: Option<string>): bool {
    if key in payload && payload[key].JBool? then payload[key].flag
    else fallback.Some? && (fallback.value == "true" || fallback.value == "1")
  }

  function AppCardToElem(codec: Codec, card: AppCard): Elem {
    var payload := PayloadOf(codec, card);
    if card.cardType == "mini_program" then
      var page := Lookup(card.attributes, "page_path");
      MiniProgram(card.appId, card.title,
                  GetString(payload, "page_path", Some(if page.Some? then page.value else "")),
                  card.thumbnailUrl, card.attributes - {"page_path"})
    else if card.cardType == "vote" then
      Vote(GetString(payload, "vote_id", Lookup(card.attributes, "vote_id")), card.title,
           GetStrings(payload, "options", Lookup(card.attributes, "options")), card.attributes,
           GetStrings(payload, "participant_user_ids", Lookup(card.attributes, "participant_user_ids")))
    else if card.cardType == "task" then
      Task(GetString(payload, "task_id", Lookup(card.attributes, "task_id")), card.title,
           GetString(payload, "status", Lookup(card.attributes, "status")), card.attributes,
           GetStrings(payload, "participant_user_ids", Lookup(card.attributes, "participant_user_ids")))
    else if card.cardType == "schedule" then
      Schedule(GetString(payload, "schedule_id", Lookup(card.attributes, "schedule_id")), card.title,
               GetU64(payload, "start_time_ms", Lookup(card.attributes, "start_time_ms")),
               GetU64(payload, "end_time_ms", Lookup(card.attributes, "end_time_ms")), card.attributes,
               GetStrings(payload, "participant_user_ids", Lookup(card.attributes, "participant_user_ids")))
    else if card.cardType == "announcement" then
      Announcement(card.title, card.summary,
                   GetBool(payload, "pinned", Lookup(card.attributes, "pinned")), card.attributes)
    else
      Custom(card.cardType, card.payload, if card.summary == "" then card.title else card.summary, card.attributes)
  }

  function JoinComma(s: seq<string>): string {
    if s == [] then "" else if |s| == 1 then s[0] else s[0] + ", " + JoinComma(s[1..])
  }

  // ---------- element to wire ----------

  function ElemToMessage(codec: Codec, e: Elem): MessageContent
    decreases e, 1
  {
    MessageContent(Some(ElemToProto(codec, e)))
  }

  function OptionToMessage(codec: Codec, o: Option<Elem>): Option<MessageContent>
    decreases o
  {
    match o
    case None => None
    case Some(e) => Some(ElemToMessage(codec, e))
  }

  function ItemsToProto(codec: Codec, items: seq<ForwardItemElem>): seq<ForwardItem>
    decreases items
  {
    if items == [] then []
    else
      var it := items[0];
      [ForwardItem(it.sourceMessageId, it.sourceConversationId, it.sourceSenderId, it.sourceSenderName,
                   MapOption(MsToI64, it.sourceTimeMs), it.messageType, it.plainText,
                   OptionToMessage(codec, it.content))]
      + ItemsToProto(codec, items[1..])
  }

  function ElemToProto(codec: Codec, e: Elem): Proto
    decreases e, 0
  {
    match e
    case Text(text, mentions) => PText(text, MapSeq(MentionIn, mentions))
    case Image(source, thumbnail, description, duration) =>
      PImage(MapOption(ImageIn, source), MapOption(ImageIn, thumbnail), description, duration)
    case Video(id, source, cover, description) =>
      PVideo(id, MapOption(VideoIn, source), MapOption(ImageIn, cover), description)
    case Audio(id, source, description) => PAudio(id, MapOption(AudioIn, source), description)
    case File(id, name, mime, size, url, description) => PFile(id, name, mime, size, url, description)
    case Location(latitude, longitude, title, address, zoom, url, path) =>
      PLocation(longitude, latitude, address, title, MapOption((z: u8) => z as i32, zoom), url, path)
    case Card(kind, id, title, subtitle, avatar, extra) => PCard(kind, id, title, subtitle, avatar, extra)
    case Sticker(id, package, url, width, height, format, extra) =>
      PSticker(id, url, width, height, extra, package, format)
    case Emoji(emoji, description, extra) => PEmoji(emoji, description, extra)
    case Quote(id, sender, preview, quoted, current) =>
      PQuote(id, sender, preview, OptionToMessage(codec, quoted), OptionToMessage(codec, current))
    case LinkCard(url, title, description, thumbnail, site) => PLinkCard(url, title, description, thumbnail, site)
    case Forward(mode, title, items) => PForward(mode, title, ItemsToProto(codec, items))
    case Thread(id, title, root, metadata) => PThread(id, title, OptionToMessage(codec, root), metadata)
    case MiniProgram(appId, title, page, thumbnail, extra) =>
      var card := NewCard(appId, "mini_program", title).(thumbnailUrl := thumbnail, attributes := extra);
      PAppCard(WithJson(codec, card, map["page_path" := JString(page)]))
    case RichText(doc, schema, plain, format, version, source, title, search, hints) =>
      PRichText(doc, schema, plain, format, source, version, title, search, hints)
    case ImageGroup(images, description, metadata) => PImageGroup(MapSeq(ImageIn, images), description, metadata)
    case System(kind, body, data, payload) => PSystem(kind, body, data, payload)
    case Notification(title, body, kind, data, users, role, all, persistent, list, badge, sound) =>
      PNotification(title, body, kind, data, users, role, all, persistent, list, badge, sound)
    case Vote(id, title, options, metadata, participants) =>
      var card := NewCard("", "vote", title).(summary := JoinComma(options), attributes := metadata);
      PAppCard(WithJson(codec, card, map["vote_id" := JString(id), "options" := Strings(options),
                                         "participant_user_ids" := Strings(participants)]))
    case Task(id, title, status, metadata, participants) =>
      var card := NewCard("", "task", title).(attributes := metadata);
      PAppCard(WithJson(codec, card, map["task_id" := JString(id), "status" := JString(status),
                                         "participant_user_ids" := Strings(participants)]))
    case Schedule(id, title, start, end, metadata, participants) =>
      var card := NewCard("", "schedule", title).(attributes := metadata);
      PAppCard(WithJson(codec, card, map["schedule_id" := JString(id), "start_time_ms" := JNumber(start),
                                         "end_time_ms" := JNumber(end),
                                         "participant_user_ids" := Strings(participants)]))
    case Announcement(title, body, pinned, metadata) =>
      var card := NewCard("", "announcement", title).(summary := body, attributes := metadata);
      PAppCard(WithJson(codec, card, map["pinned" := JBool(pinned)]))
    case Custom(kind, payload, description, metadata) => CustomToProto(codec, kind, payload, description, metadata)
    case Placeholder(reason, payload, fallback, metadata) => PPlaceholder(reason, payload, fallback, metadata)
  }

  function CustomToProto(codec: Codec, kind: string, payload: Bytes, description: string, metadata: Attributes): Proto {
    if kind == PLUGIN_TYPE && EnvelopeOf(codec, payload).Some? then
      var envelope := EnvelopeOf(codec, payload).value;
      PAppCard(NewCard(envelope.pluginId, PLUGIN_TYPE, "").(
        summary := envelope.summary, payloadSchema := "flare.plugin.message/v1", payload := payload, attributes := metadata))
    else PCustom(kind, payload, description, metadata)
  }

  // ---------- wire to element ----------

  function MessageToElem(codec: Codec, mc: MessageContent): Option<Elem>
    decreases mc
  {
    match mc.content
    case None => None
    case Some(c) => ProtoToElem(codec, c)
  }

  function OptionToElem(codec: Codec, o: Option<MessageContent>): Option<Elem>
    decreases o
  {
    match o
    case None => None
    case Some(mc) => MessageToElem(codec, mc)
  }

  function TimeOut(created: Option<i64>): Option<u64> {
    match created
    case None => None
    case Some(ms) => if MsToU64(ms) == 0 then None else Some(MsToU64(ms))
  }

  function ItemsToElem(codec: Codec, items: seq<ForwardItem>): seq<ForwardItemElem>
    decreases items
  {
    if items == [] then []
    else
      var it := items[0];
      [ForwardItemElem(it.sourceMessageId, it.sourceConversationId, it.sourceSenderId, it.sourceSenderName,
                       TimeOut(it.sourceCreatedAt), it.messageType, it.plainText, OptionToElem(codec, it.content))]
      + ItemsToElem(codec, items[1..])
  }

  function ProtoToElem(codec: Codec, c: Proto): Option<Elem>
    decreases c
  {
    match c
    case PText(text, mentions) => Some(Text(text, MapSeq(MentionOut, mentions)))
    case PImage(source, thumbnail, description, duration) =>
      Some(Image(MapOption(ImageOut, source), MapOption(ImageOut, thumbnail), description, duration))
    case PVideo(id, source, cover, description) =>
      Some(Video(id, MapOption(VideoOut, source), MapOption(ImageOut, cover), description))
    case PAudio(id, source, description) => Some(Audio(id, MapOption(AudioOut, source), description))
    case PFile(id, name, mime, size, url, description) => Some(File(id, name, mime, size, url, description))
    case PLocation(longitude, latitude, address, title, zoom, url, path) =>
      Some(Location(latitude, longitude, title, address, MapOption(Clamp8, zoom), url, path))
    case PCard(kind, id, title, subtitle, avatar, attributes) => Some(Card(kind, id, title, subtitle, avatar, attributes))
    case PSticker(id, url, width, height, attributes, package, format) =>
      Some(Sticker(id, package, url, width, height, format, attributes))
    case PEmoji(emoji, description, attributes) => Some(Emoji(emoji, description, attributes))
    case PQuote(id, sender, preview, quoted, current) =>
      Some(Quote(id, sender, preview, OptionToElem(codec, quoted), OptionToElem(codec, current)))
    case PLinkCard(url, title, description, thumbnail, site) => Some(LinkCard(url, title, description, thumbnail, site))
    case PForward(mode, title, items) => Some(Forward(mode, title, ItemsToElem(codec, items)))
    case PThread(id, title, root, attributes) => Some(Thread(id, title, OptionToElem(codec, root), attributes))
    case PAppCard(card) => Some(AppCardToElem(codec, card))
    case PRichText(doc, schema, plain, format, source, version, title, search, hints) =>
      Some(RichText(doc, schema, plain, format, version, source, title, search, hints))
    case PImageGroup(images, description, attributes) => Some(ImageGroup(MapSeq(ImageOut, images), description, attributes))
    case PSystem(kind, body, attributes, payload) => Some(System(kind, body, attributes, payload))
    case PNotification(title, body, kind, attributes, users, role, all, persistent, list, badge, sound) =>
      Some(Notification(title, body, kind, attributes, users, role, all, persistent, list, badge, sound))
    case PCustom(kind, payload, description, attributes) =>
      if kind == PLUGIN_TYPE then Some(Placeholder("unsupported", [], "", map[]))
      else Some(Custom(kind, payload, description, attributes))
    case PPlaceholder(reason, payload, fallback, attributes) => Some(Placeholder(reason, payload, fallback, attributes))
  }
}
