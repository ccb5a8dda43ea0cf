/** What stands on the wire, and what is made of wire values that this SDK did not write: every field
    under its own name, the cards in full, and the fallbacks for foreign cards. */
module ContentWire {
  import opened Prelude
  import opened Content
  import opened ContentNormal
  import UrlText

  // ---------- the copies ----------

  ghost predicate SameMention(e: MentionElem, m: Mention) {
    && e.kind == m.kind && e.userId == m.userId && e.userIds == m.userIds && e.roleId == m.roleId
    && e.start == m.start && e.length == m.length
  }

  ghost predicate SameImage(e: ImageInfoElem, i: ImageInfo) {
    && e.uuid == i.uuid && e.imageId == i.imageId && e.url == i.url && e.mimeType == i.mimeType && e.size == i.size
    && e.width == i.width && e.height == i.height && e.format == i.format && e.animated == i.animated
    && e.blurhash == i.blurhash
  }

  ghost predicate SameVideo(e: VideoInfoElem, v: VideoInfo) {
    && e.uuid == v.uuid && e.url == v.url && e.mimeType == v.mimeType && e.size == v.size
    && e.durationMs == v.durationMs && e.width == v.width && e.height == v.height
  }

  ghost predicate SameAudio(e: AudioInfoElem, a: AudioInfo) {
    && e.uuid == a.uuid && e.url == a.url && e.mimeType == a.mimeType && e.size == a.size && e.durationMs == a.durationMs
  }

  ghost predicate SameOptional<A(!new), B(!new)>(same: (A, B) -> bool, a: Option<A>, b: Option<B>) {
    a.Some? == b.Some? && (a.Some? ==> same(a.value, b.value))
  }

  ghost predicate SameEach<A(!new), B(!new)>(same: (A, B) -> bool, a: seq<A>, b: seq<B>) {
    |a| == |b| && forall i :: 0 <= i < |a| ==> same(a[i], b[i])
  }

  // ---------- flat values ----------

  /** Element and wire value of one kind, with every field under its own name. */
  ghost predicate SameFields(e: Elem, p: Proto) {
    match e
    case Text(_, _) => p.PText? && p.text == e.text && SameEach(SameMention, e.mentions, p.mentions)
    case Image(_, _, _, _) =>
      && p.PImage? && SameOptional(SameImage, e.imageSource, p.source) && SameOptional(SameImage, e.thumbnail, p.thumbnail)
      && p.description == e.imageDescription && p.durationMs == e.imageDurationMs
    case Video(_, _, _, _) =>
      && p.PVideo? && p.videoId == e.videoId && SameOptional(SameVideo, e.videoSource, p.videoSource)
      && SameOptional(SameImage, e.cover, p.cover) && p.videoDescription == e.videoDescription
    case Audio(_, _, _) =>
      && p.PAudio? && p.audioId == e.audioId && SameOptional(SameAudio, e.audioSource, p.audioSource)
      && p.audioDescription == e.audioDescription
    case File(_, _, _, _, _, _) =>
      && p.PFile? && p.fileId == e.fileId && p.fileName == e.fileName && p.fileMimeType == e.fileMimeType
      && p.fileSize == e.fileSize && p.fileUrl == e.fileUrl && p.fileDescription == e.fileDescription
    case Location(_, _, _, _, _, _, _) =>
      && p.PLocation? && p.latitude == e.latitude && p.longitude == e.longitude && p.address == e.address
      && p.locationTitle == e.locationTitle && p.snapshotUrl == e.snapshotUrl && p.snapshotLocalPath == e.snapshotLocalPath
      && p.zoom.Some? == e.zoom.Some?
      && (p.zoom.Some? ==> e.zoom.value == if p.zoom.value < 0 then 0 else if p.zoom.value > 255 then 255 else p.zoom.value)
    case Card(_, _, _, _, _, _) =>
      && p.PCard? && p.cardType == e.cardType && p.cardId == e.cardId && p.cardTitle == e.cardTitle
      && p.cardSubtitle == e.cardSubtitle && p.avatar == e.avatar && p.cardAttributes == e.cardExtra
    case Sticker(_, _, _, _, _, _, _) =>
      && p.PSticker? && p.stickerId == e.stickerId && p.packageId == e.packageId && p.stickerUrl == e.stickerUrl
      && p.stickerWidth == e.stickerWidth && p.stickerHeight == e.stickerHeight && p.stickerFormat == e.stickerFormat
      && p.stickerAttributes == e.stickerExtra
    case Emoji(_, _, _) =>
      p.PEmoji? && p.emoji == e.emoji && p.emojiDescription == e.emojiDescription && p.emojiAttributes == e.emojiExtra
    case LinkCard(_, _, _, _, _) =>
      && p.PLinkCard? && p.linkUrl == e.linkUrl && p.linkTitle == e.linkTitle && p.linkDescription == e.linkDescription
      && p.linkThumbnailUrl == e.linkThumbnailUrl && p.siteName == e.siteName
    case RichText(_, _, _, _, _, _, _, _, _) =>
      && p.PRichText? && p.docJson == e.docJson && p.contentSchema == e.contentSchema && p.richPlainText == e.richPlainText
      && p.inputFormat == e.inputFormat && p.inputFormatVersion == e.inputFormatVersion
      && p.sourceAttributes == e.sourcePayload && p.richTitle == e.richTitle && p.searchText == e.searchText
      && p.renderHintsJson == e.renderHintsJson
    case ImageGroup(_, _, _) =>
      && p.PImageGroup? && SameEach(SameImage, e.images, p.images) && p.groupDescription == e.groupDescription
      && p.groupAttributes == e.groupMetadata
    case System(_, _, _, _) =>
      && p.PSystem? && p.eventKind == e.eventKind && p.systemBody == e.systemBody && p.systemAttributes == e.systemData
      && p.systemPayload == e.systemPayload
    case Notification(_, _, _, _, _, _, _, _, _, _, _) =>
      && p.PNotification? && p.notificationTitle == e.notificationTitle && p.notificationBody == e.notificationBody
      && p.notificationType == e.notificationType && p.notificationAttributes == e.notificationData
      && p.targetUserIds == e.targetUserIds && p.targetRoleId == e.targetRoleId && p.notifyAll == e.notifyAll
      && p.persistent == e.persistent && p.showInList == e.showInList && p.showBadge == e.showBadge && p.playSound == e.playSound
    case Placeholder(_, _, _, _) =>
      && p.PPlaceholder? && p.reason == e.reason && p.placeholderPayload == e.placeholderPayload
      && p.fallbackText == e.fallbackText && p.placeholderAttributes == e.placeholderMetadata
    case Custom(_, _, _, _) =>
      && p.PCustom? && p.customType == e.customType && p.customPayload == e.customPayload
      && p.customDescription == e.customDescription && p.customAttributes == e.customMetadata
    case _ => false
  }

  predicate IsFlat(e: Elem) {
    !IsAppCard(e) && !IsNested(e) && !e.Custom?
  }

  /** Writing a flat element: its own kind, every field under its own name. */
  lemma FlatWritten(codec: Codec, e: Elem)
    requires IsFlat(e)
    ensures SameFields(e, ElemToProto(codec, e))
  {
    if IsMedia(e) { MediaWritten(codec, e); }
  }

  lemma MediaWritten(codec: Codec, e: Elem)
    requires IsMedia(e)
    ensures SameFields(e, ElemToProto(codec, e))
  {
  }

  predicate IsFlatProto(p: Proto) {
    !p.PAppCard? && !p.PQuote? && !p.PForward? && !p.PThread? && !p.PCustom?
  }

  /** Reading any flat wire value, written here or not: the same, with a zoom brought into 0..=255. */
  lemma FlatRead(codec: Codec, p: Proto)
    requires IsFlatProto(p)
    ensures ProtoToElem(codec, p).Some? && SameFields(ProtoToElem(codec, p).value, p)
  {
  }

  /** Reading any custom wire value: kept, except that one of the plugin type is not trusted. */
  lemma CustomRead(codec: Codec, p: Proto)
    requires p.PCustom?
    ensures ProtoToElem(codec, p) ==
              if p.customType == "flare.plugin.message.v1" then Some(Placeholder("unsupported", [], "", map[]))
              else Some(Custom(p.customType, p.customPayload, p.customDescription, p.customAttributes))
  {
  }

  // ---------- nested values ----------

  /** A part is absent on both sides, or present as the one message of its element. */
  ghost predicate SamePart(codec: Codec, e: Option<Elem>, p: Option<MessageContent>) {
    && p.Some? == e.Some?
    && (e.Some? ==> p.value.content == Some(ElemToProto(codec, e.value)))
  }

  lemma PartWritten(codec: Codec, e: Option<Elem>)
    ensures SamePart(codec, e, OptionToMessage(codec, e))
  {
    if e.Some? { assert ElemToMessage(codec, e.value).content == Some(ElemToProto(codec, e.value)); }
  }

  lemma NestedWritten(codec: Codec, e: Elem)
    requires IsNested(e)
    ensures var p := ElemToProto(codec, e);
            match e
            case Quote(_, _, _, _, _) =>
              && p.PQuote? && p.quotedMessageId == e.quotedMessageId && p.quotedSenderId == e.quotedSenderId
              && p.quotedTextPreview == e.quotedTextPreview && SamePart(codec, e.quotedContent, p.quotedContent)
              && SamePart(codec, e.currentContent, p.currentContent)
            case Forward(_, _, _) =>
              p.PForward? && p.mode == e.mode && p.forwardTitle == e.forwardTitle && p.items == ItemsToProto(codec, e.items)
            case Thread(_, _, _, _) =>
              && p.PThread? && p.threadId == e.threadId && p.threadTitle == e.threadTitle
              && SamePart(codec, e.rootContent, p.rootContent) && p.threadAttributes == e.threadMetadata
            case _ => true
  {
    match e
    case Quote(_, _, _, quoted, current) =>
      PartWritten(codec, quoted);
      PartWritten(codec, current);
    case Thread(_, _, root, _) => PartWritten(codec, root);
    case _ =>
  }

  /** The part that was read: the element of the one message in it, if there is one. */
  lemma PartRead(codec: Codec, p: Option<MessageContent>)
    ensures OptionToElem(codec, p) ==
              if p.Some? && p.value.content.Some? then ProtoToElem(codec, p.value.content.value) else None
  {
    if p.Some? { assert OptionToElem(codec, p) == MessageToElem(codec, p.value); }
  }

  /** Reading nested wire values that were not written here. */
  lemma NestedRead(codec: Codec, p: Proto)
    requires p.PQuote? || p.PForward? || p.PThread?
    ensures var e := ProtoToElem(codec, p);
            && (p.PQuote? ==>
                  e == Some(Quote(p.quotedMessageId, p.quotedSenderId, p.quotedTextPreview,
                                  OptionToElem(codec, p.quotedContent), OptionToElem(codec, p.currentContent))))
            && (p.PForward? ==> e == Some(Forward(p.mode, p.forwardTitle, ItemsToElem(codec, p.items))))
            && (p.PThread? ==>
                  e == Some(Thread(p.threadId, p.threadTitle, OptionToElem(codec, p.rootContent), p.threadAttributes)))
  {
  }

  /** Forwarded items: one for one and in order, every field under its own name, times cut at the largest i64. */
  lemma {:induction false} ItemsWritten(codec: Codec, items: seq<ForwardItemElem>, i: nat)
    requires i < |items|
    ensures |ItemsToProto(codec, items)| == |items|
    ensures var it, w := items[i], ItemsToProto(codec, items)[i];
            && w.sourceMessageId == it.sourceMessageId && w.sourceConversationId == it.sourceConversationId
            && w.sourceSenderId == it.sourceSenderId && w.sourceSenderName == it.sourceSenderName
            && w.messageType == it.messageType && w.plainText == it.plainText
            && SamePart(codec, it.content, w.content)
            && w.sourceCreatedAt.Some? == it.sourceTimeMs.Some?
            && (it.sourceTimeMs.Some? ==>
                  w.sourceCreatedAt.value == if it.sourceTimeMs.value > 0x7FFF_FFFF_FFFF_FFFF then 0x7FFF_FFFF_FFFF_FFFF
                                             else it.sourceTimeMs.value)
    decreases items
  {
    if |items| > 1 {
      ItemsWritten(codec, items[1..], if i == 0 then 0 else i - 1);
    } else {
      assert items[1..] == [];
    }
    PartWritten(codec, items[0].content);
  }

  /** Reading forwarded items that were not written here: a time at or before zero is none. */
  lemma {:induction false} ItemsRead(codec: Codec, items: seq<ForwardItem>, i: nat)
    requires i < |items|
    ensures |ItemsToElem(codec, items)| == |items|
    ensures var w, it := items[i], ItemsToElem(codec, items)[i];
            && w.sourceMessageId == it.sourceMessageId && w.sourceConversationId == it.sourceConversationId
            && w.sourceSenderId == it.sourceSenderId && w.sourceSenderName == it.sourceSenderName
            && w.messageType == it.messageType && w.plainText == it.plainText
            && it.sourceTimeMs == (if w.sourceCreatedAt.Some? && w.sourceCreatedAt.value > 0 then Some(w.sourceCreatedAt.value) else None)
            && it.content == (if w.content.Some? && w.content.value.content.Some?
                              then ProtoToElem(codec, w.content.value.content.value) else None)
    decreases items
  {
    if |items| > 1 {
      ItemsRead(codec, items[1..], if i == 0 then 0 else i - 1);
    } else {
      assert items[1..] == [];
    }
    PartRead(codec, items[0].content);
  }

  // ---------- cards written ----------

  /** The object a card's payload holds. */
  ghost predicate Holds(codec: Codec, card: AppCard, payload: map<string, Json>) {
    card.payloadSchema == "json" && card.payload == codec.write(payload)
  }

  /** Every field of a card written for an element, the ones nobody reads back included. */
  lemma CardWritten(codec: Codec, e: Elem)
    requires IsAppCard(e)
    ensures var p := ElemToProto(codec, e);
            && p.PAppCard? && p.card.subtitle == "" && p.card.actions == []
            && (e.MiniProgram? ==>
                  && p.card.appId == e.appId && p.card.cardType == "mini_program" && p.card.title == e.miniTitle
                  && p.card.summary == "" && p.card.thumbnailUrl == e.miniThumbnailUrl && p.card.attributes == e.miniExtra
                  && Holds(codec, p.card, map["page_path" := JString(e.pagePath)]))
            && (e.Vote? ==>
                  && p.card.appId == "" && p.card.cardType == "vote" && p.card.title == e.voteTitle
                  && p.card.summary == JoinComma(e.options) && p.card.thumbnailUrl == "" && p.card.attributes == e.voteMetadata
                  && Holds(codec, p.card, map["vote_id" := JString(e.voteId), "options" := Strings(e.options),
                                              "participant_user_ids" := Strings(e.voteParticipants)]))
            && (e.Task? ==>
                  && p.card.appId == "" && p.card.cardType == "task" && p.card.title == e.taskTitle
                  && p.card.summary == "" && p.card.thumbnailUrl == "" && p.card.attributes == e.taskMetadata
                  && Holds(codec, p.card, map["task_id" := JString(e.taskId), "status" := JString(e.status),
                                              "participant_user_ids" := Strings(e.taskParticipants)]))
            && (e.Schedule? ==>
                  && p.card.appId == "" && p.card.cardType == "schedule" && p.card.title == e.scheduleTitle
                  && p.card.summary == "" && p.card.thumbnailUrl == "" && p.card.attributes == e.scheduleMetadata
                  && Holds(codec, p.card, map["schedule_id" := JString(e.scheduleId), "start_time_ms" := JNumber(e.startTime),
                                              "end_time_ms" := JNumber(e.endTime),
                                              "participant_user_ids" := Strings(e.scheduleParticipants)]))
            && (e.Announcement? ==>
                  && p.card.appId == "" && p.card.cardType == "announcement" && p.card.title == e.announcementTitle
                  && p.card.summary == e.announcementBody && p.card.thumbnailUrl == ""
                  && p.card.attributes == e.announcementMetadata
                  && Holds(codec, p.card, map["pinned" := JBool(e.pinned)]))
  {
  }

  /** A plugin card goes out under the plugin id and summary of its envelope, its bytes untouched; every
      other custom element, one without a valid envelope included, as it is. */
  lemma CustomWritten(codec: Codec, e: Elem)
    requires e.Custom?
    ensures var p := ElemToProto(codec, e);
            if e.customType == "flare.plugin.message.v1" && EnvelopeOf(codec, e.customPayload).Some? then
              var envelope := EnvelopeOf(codec, e.customPayload).value;
              && p.PAppCard? && p.card.appId == envelope.pluginId && p.card.cardType == "flare.plugin.message.v1"
              && p.card.title == "" && p.card.subtitle == "" && p.card.summary == envelope.summary
              && p.card.thumbnailUrl == "" && p.card.payloadSchema == "flare.plugin.message/v1"
              && p.card.payload == e.customPayload && p.card.actions == [] && p.card.attributes == e.customMetadata
            else SameFields(e, p)
  {
  }

  /** The options of a vote, one after the other with a comma and a space between them. */
  lemma {:induction false} JoinCommaGrows(s: seq<string>, t: string)
    ensures JoinComma([t]) == t
    ensures s != [] ==> JoinComma(s + [t]) == JoinComma(s) + ", " + t
  {
    if |s| == 1 {
      assert (s + [t])[1..] == [t];
    } else if |s| > 1 {
      JoinCommaGrows(s[1..], t);
      assert (s + [t])[1..] == s[1..] + [t];
      assert s[0] + ", " + (JoinComma(s[1..]) + ", " + t) == (s[0] + ", " + JoinComma(s[1..])) + ", " + t;
    }
  }

  function FirstComma(s: string): (i: nat)
    ensures i <= |s| && (i < |s| <==> ',' in s)
  {
    if s == [] || s[0] == ',' then 0 else 1 + FirstComma(s[1..])
  }

  lemma {:induction false} FirstCommaIs(a: string, x: string)
    requires ',' !in a
    ensures FirstComma(a + ", " + x) == |a|
  {
    if a == [] {
      assert (a + ", " + x)[0] == ',';
    } else {
      assert a[0] in a && (a + ", " + x)[0] == a[0];
      assert (a + ", " + x)[1..] == a[1..] + ", " + x;
      FirstCommaIs(a[1..], x);
    }
  }

  lemma CommaSplits(a: string, x: string)
    requires ',' !in a
    ensures var s := a + ", " + x;
            ',' in s && s[..FirstComma(s)] == a && s[FirstComma(s) + 2..] == x
  {
    FirstCommaIs(a, x);
    assert (a + ", " + x)[|a|] == ',';
  }

  lemma CommaIff(s: seq<string>)
    requires s != [] && forall x :: x in s ==> ',' !in x
    ensures ',' in JoinComma(s) <==> |s| > 1
  {
    assert s[0] in s;
    if |s| > 1 { CommaSplits(s[0], JoinComma(s[1..])); }
  }

  /** So options without a comma can be told from the summary. */
  lemma {:induction false} JoinCommaTells(s: seq<string>, t: seq<string>)
    requires s != [] && t != [] && JoinComma(s) == JoinComma(t)
    requires (forall x :: x in s ==> ',' !in x) && (forall x :: x in t ==> ',' !in x)
    ensures s == t
  {
    CommaIff(s);
    CommaIff(t);
    assert s[0] in s && t[0] in t;
    if |s| > 1 {
      CommaSplits(s[0], JoinComma(s[1..]));
      CommaSplits(t[0], JoinComma(t[1..]));
      JoinCommaTells(s[1..], t[1..]);
      assert s == [s[0]] + s[1..] && t == [t[0]] + t[1..];
    }
  }

  // ---------- cards read ----------

  const KNOWN := {"mini_program", "vote", "task", "schedule", "announcement"}

  /** A card of a foreign type, a plugin card among them: kept as a custom element with its bytes and
      attributes, described by its summary or, for want of one, its title. */
  lemma ForeignCardRead(codec: Codec, card: AppCard)
    requires card.cardType !in KNOWN
    ensures ProtoToElem(codec, PAppCard(card)) ==
              Some(Custom(card.cardType, card.payload, if card.summary == "" then card.title else card.summary, card.attributes))
  {
  }

  function Attr(card: AppCard, key: string): string {
    if key in card.attributes then card.attributes[key] else ""
  }

  /** A known card without a readable payload is filled from its attributes. */
  lemma AttributesFillIn(codec: Codec, card: AppCard)
    requires codec.readObject(card.payload).None?
    ensures var e := ProtoToElem(codec, PAppCard(card));
            && (card.cardType == "mini_program" ==>
                  e == Some(MiniProgram(card.appId, card.title, Attr(card, "page_path"), card.thumbnailUrl,
                                        card.attributes - {"page_path"})))
            && (card.cardType == "vote" ==>
                  e == Some(Vote(Attr(card, "vote_id"), card.title, NonBlank(Lines(Attr(card, "options"))), card.attributes,
                                 NonBlank(Lines(Attr(card, "participant_user_ids"))))))
            && (card.cardType == "task" ==>
                  e == Some(Task(Attr(card, "task_id"), card.title, Attr(card, "status"), card.attributes,
                                 NonBlank(Lines(Attr(card, "participant_user_ids"))))))
  {
  }

  lemma TimesAndFlagsFillIn(codec: Codec, card: AppCard)
    requires codec.readObject(card.payload).None?
    ensures var e := ProtoToElem(codec, PAppCard(card));
            && (card.cardType == "schedule" ==>
                  e == Some(Schedule(Attr(card, "schedule_id"), card.title, NumberOr0(Attr(card, "start_time_ms")),
                                     NumberOr0(Attr(card, "end_time_ms")), card.attributes,
                                     NonBlank(Lines(Attr(card, "participant_user_ids"))))))
            && (card.cardType == "announcement" ==>
                  e == Some(Announcement(card.title, card.summary, Attr(card, "pinned") in {"true", "1"}, card.attributes)))
  {
  }

  function NumberOr0(s: string): u64 {
    if ParseU64(s).Some? then ParseU64(s).value else 0
  }

  /** A payload that is an object, whoever wrote it: a key with a value of the right type wins over the
      attribute, any other value counts as missing. */
  lemma PayloadWins(payload: map<string, Json>, key: string, fallback: Option<string>)
    ensures key in payload && payload[key].JString? ==> GetString(payload, key, fallback) == payload[key].text
    ensures key in payload && payload[key].JNumber? ==> GetU64(payload, key, fallback) == payload[key].n
    ensures key in payload && payload[key].JBool? ==> GetBool(payload, key, fallback) == payload[key].flag
    ensures key !in payload || !payload[key].JString? ==> GetString(payload, key, fallback) == GetString(map[], key, fallback)
    ensures key !in payload || !payload[key].JNumber? ==> GetU64(payload, key, fallback) == GetU64(map[], key, fallback)
    ensures key !in payload || !payload[key].JBool? ==> GetBool(payload, key, fallback) == GetBool(map[], key, fallback)
    ensures key !in payload || !payload[key].JArray? ==> GetStrings(payload, key, fallback) == GetStrings(map[], key, fallback)
  {
  }

  function JoinLines(lines: seq<string>): string {
    if lines == [] then "" else lines[0] + "\n" + JoinLines(lines[1..])
  }

  lemma {:induction false} NewLineIs(a: string, x: string)
    requires '\n' !in a
    ensures NewLine(a + "\n" + x) == |a|
  {
    if a == [] {
      assert (a + "\n" + x)[0] == '\n';
    } else {
      assert a[0] in a && (a + "\n" + x)[0] == a[0];
      assert (a + "\n" + x)[1..] == a[1..] + "\n" + x;
      NewLineIs(a[1..], x);
    }
  }

  /** The attribute form of a list: one item to a line. */
  lemma {:induction false} LinesReadBack(lines: seq<string>)
    requires forall l :: l in lines ==> '\n' !in l && l != "" && Trim(l) == l
    ensures NonBlank(Lines(JoinLines(lines))) == lines
  {
    if lines != [] {
      assert lines[0] in lines;
      var rest := JoinLines(lines[1..]);
      var s := lines[0] + "\n" + rest;
      NewLineIs(lines[0], rest);
      assert s[..|lines[0]|] == lines[0] && s[|lines[0]| + 1..] == rest;
      LinesReadBack(lines[1..]);
      assert ([lines[0]] + Lines(rest))[1..] == Lines(rest);
      assert lines == [lines[0]] + lines[1..];
    }
  }

  /** The attribute form of a number: its decimal digits. */
  lemma NumberReadsBack(n: u64)
    ensures ParseU64(UrlText.PrintNat(n)) == Some(n)
  {
    var s := UrlText.PrintNat(n);
    assert forall c :: c in s ==> IsDigit(c);
    assert s[0] in s;
    DigitsAgree(s);
  }

  lemma {:induction false} DigitsAgree(s: UrlText.Text)
    requires UrlText.AllDigits(s)
    ensures DigitsValue(s) == UrlText.DecimalValue(s)
  {
    if s != [] {
      assert s[|s| - 1] in s;
      DigitsAgree(s[..|s| - 1]);
    }
  }
}
