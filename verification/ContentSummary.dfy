/** The list summary kind by kind: its key, its arguments by name, and the code that fills the argument
    map step by step. */
module ContentSummary {
  import opened Prelude
  import opened Content
  import opened ContentPreview

  // ---------- keys ----------

  predicate IsLeaf(e: Elem) { !e.Quote? && !e.Forward? }

  /** The key each kind is stored under. */
  function KindKey(e: Elem): string
    requires IsLeaf(e)
  {
    match e
    case Text(_, _) => "im.preview.user_text"
    case Image(_, _, _, _) => "im.preview.image"
    case Video(_, _, _, _) => "im.preview.video"
    case Audio(_, _, _) => "im.preview.audio"
    case File(_, _, _, _, _, _) => "im.preview.file"
    case Location(_, _, _, _, _, _, _) => "im.preview.location"
    case Card(_, _, _, _, _, _) => "im.preview.card"
    case Sticker(_, _, _, _, _, _, _) => "im.preview.sticker"
    case Emoji(_, _, _) => "im.preview.emoji"
    case LinkCard(_, _, _, _, _) => "im.preview.link"
    case Thread(_, _, _, _) => "im.preview.thread"
    case MiniProgram(_, _, _, _, _) => "im.preview.mini_program"
    case RichText(_, _, _, _, _, _, _, _, _) => "im.preview.rich_text"
    case ImageGroup(_, _, _) => "im.preview.image_group"
    case System(_, _, _, _) => "im.preview.system"
    case Notification(_, _, _, _, _, _, _, _, _, _, _) => "im.preview.notification"
    case Vote(_, _, _, _, _) => "im.preview.vote"
    case Task(_, _, _, _, _) => "im.preview.task"
    case Schedule(_, _, _, _, _, _) => "im.preview.schedule"
    case Announcement(_, _, _, _) => "im.preview.announcement"
    case Custom(_, _, _, _) => "im.preview.custom"
    case Placeholder(_, _, _, _) => "im.preview.placeholder"
  }

  lemma SummaryKey(codec: Codec, e: Elem)
    requires IsLeaf(e)
    ensures PreviewOf(codec, e).k == KindKey(e)
  {
  }

  // ---------- arguments ----------

  /** The one argument `key`, left out when the text is blank. */
  predicate OnlyText(p: Preview, key: string, text: string) {
    p.a == if Trim(text) == "" then map[] else map[key := JString(text)]
  }

  /** The one argument `key`, left out when the text is empty. */
  predicate OnlyLabel(p: Preview, key: string, text: string) {
    p.a == if text == "" then map[] else map[key := JString(text)]
  }

  /** What the reader is shown of each kind, by the element's own fields. */
  lemma SummaryArguments(codec: Codec, e: Elem)
    ensures var p := PreviewOf(codec, e);
            && (e.Text? ==> p.a == map["t" := JString(e.text)])
            && (e.Emoji? ==> p.a == map["e" := JString(e.emoji)])
            && (e.File? ==> OnlyLabel(p, "n", e.fileName))
            && (e.Video? ==> OnlyText(p, "d", e.videoDescription))
            && (e.Audio? ==> OnlyText(p, "d", e.audioDescription))
            && (e.Location? ==> OnlyLabel(p, "label", if e.locationTitle != "" then e.locationTitle else e.address))
            && (e.Card? ==> OnlyLabel(p, "label", if e.cardTitle != "" then e.cardTitle else e.cardId))
            && (e.LinkCard? ==> OnlyText(p, "t", e.linkTitle))
            && (e.Thread? ==> OnlyText(p, "t", e.threadTitle))
            && (e.MiniProgram? ==> OnlyText(p, "t", e.miniTitle))
            && (e.Task? ==> OnlyText(p, "t", e.taskTitle))
            && (e.Announcement? ==> OnlyText(p, "t", e.announcementTitle))
            && (e.Placeholder? ==> OnlyText(p, "t", e.fallbackText))
            && (e.Sticker? || e.ImageGroup? || e.Vote? || e.Schedule? ==> p.a == map[])
  {
  }

  lemma ImageSummary(codec: Codec, e: Elem)
    requires e.Image?
    ensures var a := PreviewOf(codec, e).a;
            && ("m" in a <==> e.imageSource.Some? && IsMotion(codec, e.imageSource.value)) && ("m" in a ==> a["m"] == JBool(true))
            && ("d" in a <==> Trim(e.imageDescription) != "") && ("d" in a ==> a["d"] == JString(e.imageDescription))
            && a.Keys <= {"m", "d"}
  {
  }

  lemma RichTextSummary(codec: Codec, e: Elem)
    requires e.RichText?
    ensures var a := PreviewOf(codec, e).a;
            && ("title" in a <==> e.richTitle.Some? && Trim(e.richTitle.value) != "")
            && ("title" in a ==> a["title"] == JString(Trim(e.richTitle.value)))
            && ("body" in a <==> Trim(e.richPlainText) != "") && ("body" in a ==> a["body"] == JString(Trim(e.richPlainText)))
            && a.Keys <= {"title", "body"}
  {
  }

  /** A custom element shows its trimmed description; a plugin card with a valid envelope the plugin's name in
      brackets and the envelope's summary, as far as there are any. */
  lemma CustomSummary(codec: Codec, e: Elem)
    requires e.Custom?
    ensures var p := PreviewOf(codec, e);
            if e.customType == "flare.plugin.message.v1" && EnvelopeOf(codec, e.customPayload).Some? then
              var envelope := EnvelopeOf(codec, e.customPayload).value;
              var name := if envelope.displayName.Some? then Trim(envelope.displayName.value) else "";
              var summary := Trim(envelope.summary);
              OnlyLabel(p, "d", if name == "" then summary else if summary == "" then "[" + name + "]" else "[" + name + "] " + summary)
            else OnlyLabel(p, "d", Trim(e.customDescription))
  {
  }

  /** The key under which a notice is translated: its own, else its kind. */
  ghost predicate NoticeKey(data: Attributes, kind: string, key: string) {
    if "i18n_key" in data && Trim(data["i18n_key"]) != "" then key == Trim(data["i18n_key"]) else key == Trim(kind) && key != ""
  }

  ghost predicate HasNoticeKey(data: Attributes, kind: string) {
    ("i18n_key" in data && Trim(data["i18n_key"]) != "") || Trim(kind) != ""
  }

  ghost predicate Params(codec: Codec, data: Attributes, a: map<string, Json>) {
    var params := if "i18n_params" in data then codec.readParams(data["i18n_params"]) else None;
    ("p" in a <==> params.Some? && params.value != map[]) && ("p" in a ==> a["p"] == JObject(params.value))
  }

  ghost predicate Optional(a: map<string, Json>, key: string, text: string) {
    (key in a <==> Trim(text) != "") && (key in a ==> a[key] == JString(text))
  }

  /** Five maps, each with at most its own key, put together. */
  lemma FiveParts(ik: map<string, Json>, ek: map<string, Json>, title: map<string, Json>, p: map<string, Json>,
                  fb: map<string, Json>)
    requires ik.Keys <= {"ik"} && ek.Keys <= {"ek"} && title.Keys <= {"title"} && p.Keys <= {"p"} && fb.Keys <= {"fb"}
    ensures var a := ik + ek + title + p + fb;
            && a.Keys <= {"ik", "ek", "title", "p", "fb"}
            && ("ik" in a <==> "ik" in ik) && ("ik" in ik ==> a["ik"] == ik["ik"])
            && ("ek" in a <==> "ek" in ek) && ("ek" in ek ==> a["ek"] == ek["ek"])
            && ("title" in a <==> "title" in title) && ("title" in title ==> a["title"] == title["title"])
            && ("p" in a <==> "p" in p) && ("p" in p ==> a["p"] == p["p"])
            && ("fb" in a <==> "fb" in fb) && ("fb" in fb ==> a["fb"] == fb["fb"])
  {
  }

  /** The arguments of a notice that has a key: which of them are there, and what they say. */
  lemma NoticeArguments(codec: Codec, storageKey: string, kind: string, title: Option<string>, body: string,
                        data: Attributes, includeKind: bool)
    requires HasNoticeKey(data, kind)
    ensures var a := Localizable(codec, storageKey, kind, title, body, data, includeKind).a;
            && "ik" in a && a["ik"].JString? && NoticeKey(data, kind, a["ik"].text)
            && ("ek" in a <==> includeKind && Trim(kind) != "") && ("ek" in a ==> a["ek"] == JString(Trim(kind)))
            && ("title" in a <==> title.Some? && Trim(title.value) != "") && ("title" in a ==> a["title"] == JString(title.value))
            && Params(codec, data, a) && Optional(a, "fb", body)
            && a.Keys <= {"ik", "ek", "title", "p", "fb"}
  {
    var ik := I18nKey(data, kind).value;
    var ek := Arg("ek", JString(Trim(kind)), includeKind && Trim(kind) != "");
    var titleArg := if title.Some? then TitleArg("title", title.value) else map[];
    FiveParts(map["ik" := JString(ik)], ek, titleArg, ParamsArg(codec, data), TitleArg("fb", body));
  }

  /** Without one a system message shows its body as text, and a notification its body or else its title. */
  lemma PlainNotice(codec: Codec, storageKey: string, kind: string, title: Option<string>, body: string,
                    data: Attributes, includeKind: bool)
    requires !HasNoticeKey(data, kind)
    ensures var p := Localizable(codec, storageKey, kind, title, body, data, includeKind);
            && (storageKey == "im.preview.system" ==> OnlyText(p, "t", body))
            && (storageKey != "im.preview.system" && Trim(body) != "" ==> p.a == map["body" := JString(body)])
            && (storageKey != "im.preview.system" && Trim(body) == "" && title.Some? ==> OnlyText(p, "title", title.value))
  {
  }

  lemma SystemSummary(codec: Codec, e: Elem)
    requires e.System?
    ensures var a := PreviewOf(codec, e).a;
            if HasNoticeKey(e.systemData, e.eventKind) then
              && "ik" in a && a["ik"].JString? && NoticeKey(e.systemData, e.eventKind, a["ik"].text)
              && ("ek" in a <==> Trim(e.eventKind) != "") && ("ek" in a ==> a["ek"] == JString(Trim(e.eventKind)))
              && Params(codec, e.systemData, a) && Optional(a, "fb", e.systemBody)
              && a.Keys <= {"ik", "ek", "p", "fb"}
            else OnlyText(PreviewOf(codec, e), "t", e.systemBody)
  {
    if HasNoticeKey(e.systemData, e.eventKind) {
      NoticeArguments(codec, "im.preview.system", e.eventKind, None, e.systemBody, e.systemData, true);
    } else {
      PlainNotice(codec, "im.preview.system", e.eventKind, None, e.systemBody, e.systemData, true);
    }
  }

  lemma NotificationSummary(codec: Codec, e: Elem)
    requires e.Notification?
    ensures var a := PreviewOf(codec, e).a;
            if HasNoticeKey(e.notificationData, e.notificationType) then
              && "ik" in a && a["ik"].JString? && NoticeKey(e.notificationData, e.notificationType, a["ik"].text)
              && Params(codec, e.notificationData, a) && Optional(a, "fb", e.notificationBody)
              && Optional(a, "title", e.notificationTitle) && a.Keys <= {"ik", "title", "p", "fb"}
            else if Trim(e.notificationBody) != "" then a == map["body" := JString(e.notificationBody)]
            else OnlyText(PreviewOf(codec, e), "title", e.notificationTitle)
  {
    var key, title := "im.preview.notification", Some(e.notificationTitle);
    if HasNoticeKey(e.notificationData, e.notificationType) {
      NoticeArguments(codec, key, e.notificationType, title, e.notificationBody, e.notificationData, false);
    } else {
      PlainNotice(codec, key, e.notificationType, title, e.notificationBody, e.notificationData, false);
    }
  }

  /** A quote shows what was said now; failing that the quoted text, and failing that only that it is a quote. */
  lemma QuoteSummary(codec: Codec, e: Elem)
    requires e.Quote?
    ensures var p := PreviewOf(codec, e);
            if e.currentContent.Some? && !IsEmptyPreview(PreviewOf(codec, e.currentContent.value)) then
              p == Preview("im.preview.quote", map["inner" := ToJson(PreviewOf(codec, e.currentContent.value))])
            else if Trim(e.quotedTextPreview) == "" then p == Preview("im.preview.quote", map[])
            else
              match codec.readPreview(Trim(e.quotedTextPreview))
              case Some(stored) => p == stored
              case None => p == Preview("im.preview.user_text", map["t" := JString(e.quotedTextPreview)])
  {
    assert PreviewOf(codec, e) == QuotePreview(codec, e);
  }

  /** A forward shows its only item as that item would be shown, and several by their number and the first. */
  lemma ForwardSummary(codec: Codec, e: Elem)
    requires e.Forward?
    ensures var p := PreviewOf(codec, e);
            if |e.items| == 0 then p == Preview("im.preview.forward_empty", map[])
            else if |e.items| == 1 then
              if e.items[0].content.Some? then p == PreviewOf(codec, e.items[0].content.value)
              else p.k == "im.preview.user_text" && OnlyText(p, "t", e.items[0].plainText)
            else
              && p.k == "im.preview.forward_many" && p.a.Keys <= {"n", "first"}
              && "n" in p.a && (|e.items| < 0x1_0000_0000_0000_0000 ==> p.a["n"] == JNumber(|e.items|))
              && ("first" in p.a <==> e.items[0].content.Some? || e.items[0].plainText != "")
              && (e.items[0].content.Some? ==> p.a["first"] == ToJson(PreviewOf(codec, e.items[0].content.value)))
              && (e.items[0].content.None? && e.items[0].plainText != "" ==>
                    exists text: Preview :: p.a["first"] == ToJson(text) && text.k == "im.preview.user_text"
                                            && OnlyText(text, "t", e.items[0].plainText))
  {
    assert PreviewOf(codec, e) == ForwardPreview(codec, e);
    if |e.items| > 1 && e.items[0].content.None? && e.items[0].plainText != "" {
      var text := UserTextPreview(e.items[0].plainText);
      assert PreviewOf(codec, e).a["first"] == ToJson(text) && OnlyText(text, "t", e.items[0].plainText);
    }
  }

  // ---------- filling the argument map ----------

  method FillIf(a: map<string, Json>, key: string, value: Json, shown: bool) returns (b: map<string, Json>)
    ensures b == a + Arg(key, value, shown)
  {
    b := a;
    if shown {
      b := b[key := value];
    }
  }

  method FillText(a: map<string, Json>, key: string, text: string) returns (b: map<string, Json>)
    ensures b == a + TitleArg(key, text)
  {
    b := FillIf(a, key, JString(text), Trim(text) != "");
  }

  method FillLabel(key: string, text: string) returns (a: map<string, Json>)
    ensures a == Arg(key, JString(text), text != "")
  {
    a := FillIf(map[], key, JString(text), text != "");
  }

  method FillParams(codec: Codec, a: map<string, Json>, data: Attributes) returns (b: map<string, Json>)
    ensures b == a + ParamsArg(codec, data)
  {
    b := a;
    if "i18n_params" in data {
      var params := codec.readParams(data["i18n_params"]);
      if params.Some? {
        b := FillIf(b, "p", JObject(params.value), params.value != map[]);
      }
    }
  }

  method FillKeyed(codec: Codec, key: string, kind: string, title: Option<string>, body: string, data: Attributes,
                   includeKind: bool) returns (a: map<string, Json>)
    ensures a == map["ik" := JString(key)] + Arg("ek", JString(Trim(kind)), includeKind && Trim(kind) != "")
                 + (if title.Some? then TitleArg("title", title.value) else map[]) + ParamsArg(codec, data)
                 + TitleArg("fb", body)
  {
    a := map["ik" := JString(key)];
    a := FillIf(a, "ek", JString(Trim(kind)), includeKind && Trim(kind) != "");
    if title.Some? {
      a := FillText(a, "title", title.value);
    }
    a := FillParams(codec, a, data);
    a := FillText(a, "fb", body);
  }

  method FillNotice(codec: Codec, storageKey: string, kind: string, title: Option<string>, body: string,
                    data: Attributes, includeKind: bool) returns (p: Preview)
    ensures p == Localizable(codec, storageKey, kind, title, body, data, includeKind)
  {
    var a: map<string, Json> := map[];
    var key := I18nKey(data, kind);
    if key.Some? {
      a := FillKeyed(codec, key.value, kind, title, body, data, includeKind);
    } else if storageKey == "im.preview.system" {
      a := FillText(a, "t", body);
    } else if Trim(body) != "" {
      a := a["body" := JString(body)];
    } else if title.Some? {
      a := FillText(a, "title", title.value);
    }
    p := Preview(storageKey, a);
  }

  method FillImage(codec: Codec, e: Elem) returns (a: map<string, Json>)
    requires e.Image?
    ensures a == PreviewOf(codec, e).a
  {
    a := map[];
    if e.imageSource.Some? && IsMotion(codec, e.imageSource.value) {
      a := a["m" := JBool(true)];
    }
    a := FillText(a, "d", e.imageDescription);
  }

  method FillRichText(codec: Codec, e: Elem) returns (a: map<string, Json>)
    requires e.RichText?
    ensures a == PreviewOf(codec, e).a
  {
    a := map[];
    if e.richTitle.Some? && Trim(e.richTitle.value) != "" {
      a := a["title" := JString(Trim(e.richTitle.value))];
    }
    var body := Trim(e.richPlainText);
    if body != "" {
      a := a["body" := JString(body)];
    }
  }

  method SummarizeQuote(codec: Codec, e: Elem) returns (p: Preview)
    requires e.Quote?
    ensures p == PreviewOf(codec, e)
    decreases e, 0
  {
    if e.currentContent.Some? {
      var inner := Summarize(codec, e.currentContent.value);
      if !IsEmptyPreview(inner) {
        return Preview("im.preview.quote", map["inner" := ToJson(inner)]);
      }
    }
    if Trim(e.quotedTextPreview) != "" {
      p := DecodeOrUserText(codec, e.quotedTextPreview);
    } else {
      p := Preview("im.preview.quote", map[]);
    }
  }

  method SummarizeForward(codec: Codec, e: Elem) returns (p: Preview)
    requires e.Forward?
    ensures p == PreviewOf(codec, e)
    decreases e, 0
  {
    if e.items == [] {
      return Preview("im.preview.forward_empty", map[]);
    }
    var first := UserTextPreview(e.items[0].plainText);
    if e.items[0].content.Some? {
      first := Summarize(codec, e.items[0].content.value);
    }
    if |e.items| == 1 {
      return first;
    }
    var a: map<string, Json> := map[];
    a := a["n" := CountJson(|e.items|)];
    if e.items[0].content.Some? || e.items[0].plainText != "" {
      a := a["first" := ToJson(first)];
    }
    p := Preview("im.preview.forward_many", a);
  }

  /** The whole of it, arm by arm. */
  method Summarize(codec: Codec, e: Elem) returns (p: Preview)
    ensures p == PreviewOf(codec, e)
    decreases e, 1
  {
    if e.Quote? {
      p := SummarizeQuote(codec, e);
    } else if e.Forward? {
      p := SummarizeForward(codec, e);
    } else if e.System? {
      p := FillNotice(codec, "im.preview.system", e.eventKind, None, e.systemBody, e.systemData, true);
    } else if e.Notification? {
      p := FillNotice(codec, "im.preview.notification", e.notificationType, Some(e.notificationTitle), e.notificationBody,
                      e.notificationData, false);
    } else if IsTitled(e) {
      SummaryKey(codec, e);
      TitledSummary(codec, e);
      var a := FillText(map[], "t", TitleOf(e));
      p := Preview(KindKey(e), a);
    } else {
      SummaryKey(codec, e);
      var a := FillLeaf(codec, e);
      p := Preview(KindKey(e), a);
    }
  }

  method FillLeaf(codec: Codec, e: Elem) returns (a: map<string, Json>)
    requires IsLeaf(e) && !e.System? && !e.Notification? && !IsTitled(e)
    ensures a == PreviewOf(codec, e).a
  {
    a := map[];
    match e
    case Text(text, _) => a := a["t" := JString(text)];
    case Emoji(emoji, _, _) => a := a["e" := JString(emoji)];
    case Image(_, _, _, _) => a := FillImage(codec, e);
    case RichText(_, _, _, _, _, _, _, _, _) => a := FillRichText(codec, e);
    case File(_, name, _, _, _, _) => a := FillLabel("n", name);
    case Location(_, _, title, address, _, _, _) => a := FillLabel("label", if title != "" then title else address);
    case Card(_, id, title, _, _, _) => a := FillLabel("label", if title != "" then title else id);
    case Video(_, _, _, description) => a := FillText(a, "d", description);
    case Audio(_, _, description) => a := FillText(a, "d", description);
    case Custom(kind, payload, description, _) =>
      var plugin := PluginPreview(codec, kind, payload);
      a := FillLabel("d", if plugin.Some? then plugin.value else Trim(description));
    case _ =>
  }

  predicate IsTitled(e: Elem) {
    e.LinkCard? || e.Thread? || e.MiniProgram? || e.Vote? || e.Task? || e.Schedule? || e.Announcement? || e.Sticker?
    || e.ImageGroup? || e.Placeholder?
  }

  /** The title these kinds show; the others show nothing but what they are. */
  function TitleOf(e: Elem): string
    requires IsTitled(e)
  {
    match e
    case LinkCard(_, title, _, _, _) => title
    case Thread(_, title, _, _) => title
    case MiniProgram(_, title, _, _, _) => title
    case Task(_, title, _, _, _) => title
    case Announcement(title, _, _, _) => title
    case Placeholder(_, _, fallback, _) => fallback
    case _ => ""
  }

  lemma TitledSummary(codec: Codec, e: Elem)
    requires IsTitled(e)
    ensures PreviewOf(codec, e).a == TitleArg("t", TitleOf(e))
  {
  }
}
