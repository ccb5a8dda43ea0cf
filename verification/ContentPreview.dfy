/** The stored list summary of an element, and when the wire preserves it. */
module ContentPreview {
  import opened Prelude
  import opened Content
  import opened ContentNormal

  // ---------- the summary ----------

  const USER_TEXT := "im.preview.user_text"
  const QUOTE := "im.preview.quote"
  const CUSTOM := "im.preview.custom"
  const PLACEHOLDER := "im.preview.placeholder"

  predicate IsEmptyPreview(p: Preview) {
    p.k == USER_TEXT && ("t" in p.a && p.a["t"].JString? ==> Trim(p.a["t"].text) == "")
  }

  /** serde's view of a summary: the arguments are left out when there are none. */
  function ToJson(p: Preview): Json {
    JObject(map["k" := JString(p.k)] + (if p.a == map[] then map[] else map["a" := JObject(p.a)]))
  }

  function DecodeOrUserText(codec: Codec, s: string): Preview {
    var t := Trim(s);
    if t == "" then Preview(USER_TEXT, map[])
    else
      match codec.readPreview(t)
      case Some(p) => p
      case None => Preview(USER_TEXT, map["t" := JString(s)])
  }

  /** One argument, left out when `shown` is false. */
  function Arg(key: string, value: Json, shown: bool): map<string, Json> {
    if shown then map[key := value] else map[]
  }

  function TitleArg(key: string, text: string): map<string, Json> {
    Arg(key, JString(text), Trim(text) != "")
  }

  predicate ContainsText(s: string, t: string) {
    t <= s || (s != [] && ContainsText(s[1..], t))
  }

  predicate IsMotion(codec: Codec, i: ImageInfoElem) {
    || i.animated || i.format == codec.gif || i.format == codec.apng
    || ContainsText(Lower(i.mimeType), "gif") || ContainsText(Lower(i.mimeType), "apng")
  }

  function I18nKey(data: Attributes, fallback: string): Option<string> {
    if "i18n_key" in data && Trim(data["i18n_key"]) != "" then Some(Trim(data["i18n_key"]))
    else if Trim(fallback) != "" then Some(Trim(fallback))
    else None
  }

  function ParamsArg(codec: Codec, data: Attributes): map<string, Json> {
    if "i18n_params" !in data then map[]
    else
      match codec.readParams(data["i18n_params"])
      case None => map[]
      case Some(params) => Arg("p", JObject(params), params != map[])
  }

  function Localizable(codec: Codec, storageKey: string, fallbackKey: string, title: Option<string>, body: string,
                       data: Attributes, includeKind: bool): Preview
  {
    var titleArg := if title.Some? then TitleArg("title", title.value) else map[];
    match I18nKey(data, fallbackKey)
    case Some(ik) =>
      Preview(storageKey,
              map["ik" := JString(ik)]
              + Arg("ek", JString(Trim(fallbackKey)), includeKind && Trim(fallbackKey) != "")
              + titleArg + ParamsArg(codec, data) + TitleArg("fb", body))
    case None =>
      if storageKey == "im.preview.system" then Preview(storageKey, TitleArg("t", body))
      else if Trim(body) != "" then Preview(storageKey, map["body" := JString(body)])
      else Preview(storageKey, titleArg)
  }

  function Bracketed(name: string, summary: string): string {
    if name != "" && summary != "" then "[" + name + "] " + summary
    else if name != "" then "[" + name + "]"
    else summary
  }

  function PluginPreview(codec: Codec, kind: string, payload: Bytes): Option<string> {
    if kind != PLUGIN_TYPE then None
    else
      match EnvelopeOf(codec, payload)
      case None => None
      case Some(envelope) =>
        var name := if envelope.displayName.Some? then Trim(envelope.displayName.value) else "";
        Some(Bracketed(name, Trim(envelope.summary)))
  }

  function CustomPreview(codec: Codec, kind: string, payload: Bytes, description: string): Preview {
    var plugin := PluginPreview(codec, kind, payload);
    var text := if plugin.Some? then plugin.value else Trim(description);
    Preview(CUSTOM, Arg("d", JString(text), text != ""))
  }

  function UserTextPreview(text: string): Preview {
    Preview(USER_TEXT, TitleArg("t", text))
  }

  function QuotePreview(codec: Codec, e: Elem): Preview
    requires e.Quote?
    decreases e, 0
  {
    var rest :=
      if Trim(e.quotedTextPreview) != "" then DecodeOrUserText(codec, e.quotedTextPreview) else Preview(QUOTE, map[]);
    if e.currentContent.None? then rest
    else
      var inner := PreviewOf(codec, e.currentContent.value);
      if IsEmptyPreview(inner) then rest else Preview(QUOTE, map["inner" := ToJson(inner)])
  }

  function ForwardPreview(codec: Codec, e: Elem): Preview
    requires e.Forward?
    decreases e, 0
  {
    if e.items == [] then Preview("im.preview.forward_empty", map[])
    else
      var first := e.items[0];
      var text := UserTextPreview(first.plainText);
      if |e.items| == 1 then
        if first.content.Some? then PreviewOf(codec, first.content.value) else text
      else
        var shown :=
          if first.content.Some? then map["first" := ToJson(PreviewOf(codec, first.content.value))]
          else Arg("first", ToJson(text), first.plainText != "");
        Preview("im.preview.forward_many", map["n" := CountJson(|e.items|)] + shown)
  }

  /** A count as serde writes it, `usize as u64`. */
  function CountJson(n: nat): Json {
    JNumber(n % 0x1_0000_0000_0000_0000)
  }

  function PreviewOf(codec: Codec, e: Elem): Preview
    decreases e, 1
  {
    match e
    case Text(text, _) => Preview(USER_TEXT, map["t" := JString(text)])
    case RichText(_, _, plain, _, _, _, title, _, _) =>
      Preview("im.preview.rich_text",
              (if title.Some? then Arg("title", JString(Trim(title.value)), Trim(title.value) != "") else map[])
              + Arg("body", JString(Trim(plain)), Trim(plain) != ""))
    case File(_, name, _, _, _, _) => Preview("im.preview.file", Arg("n", JString(name), name != ""))
    case Image(source, _, description, _) =>
      Preview("im.preview.image",
              Arg("m", JBool(true), source.Some? && IsMotion(codec, source.value)) + TitleArg("d", description))
    case Video(_, _, _, description) => Preview("im.preview.video", TitleArg("d", description))
    case Audio(_, _, description) => Preview("im.preview.audio", TitleArg("d", description))
    case Location(_, _, title, address, _, _, _) =>
      var shown := if title != "" then title else address;
      Preview("im.preview.location", Arg("label", JString(shown), shown != ""))
    case Card(_, id, title, _, _, _) =>
      var shown := if title != "" then title else id;
      Preview("im.preview.card", Arg("label", JString(shown), shown != ""))
    case Sticker(_, _, _, _, _, _, _) => Preview("im.preview.sticker", map[])
    case Emoji(emoji, _, _) => Preview("im.preview.emoji", map["e" := JString(emoji)])
    case Quote(_, _, _, _, _) => QuotePreview(codec, e)
    case LinkCard(_, title, _, _, _) => Preview("im.preview.link", TitleArg("t", title))
    case Forward(_, _, _) => ForwardPreview(codec, e)
    case Thread(_, title, _, _) => Preview("im.preview.thread", TitleArg("t", title))
    case MiniProgram(_, title, _, _, _) => Preview("im.preview.mini_program", TitleArg("t", title))
    case ImageGroup(_, _, _) => Preview("im.preview.image_group", map[])
    case System(kind, body, data, _) => Localizable(codec, "im.preview.system", kind, None, body, data, true)
    case Notification(title, body, kind, data, _, _, _, _, _, _, _) =>
      Localizable(codec, "im.preview.notification", kind, Some(title), body, data, false)
    case Vote(_, _, _, _, _) => Preview("im.preview.vote", map[])
    case Task(_, title, _, _, _) => Preview("im.preview.task", TitleArg("t", title))
    case Schedule(_, _, _, _, _, _) => Preview("im.preview.schedule", map[])
    case Announcement(title, _, _, _) => Preview("im.preview.announcement", TitleArg("t", title))
    case Custom(kind, payload, description, _) => CustomPreview(codec, kind, payload, description)
    case Placeholder(_, _, fallback, _) => Preview(PLACEHOLDER, TitleArg("t", fallback))
  }

  /** A plugin card is summed up from its envelope's name and summary alone: neither the card data
      nor the element's own description can show up in the list. */
  lemma PluginPreviewFromEnvelope(codec: Codec, x: Elem, y: Elem)
    requires x.Custom? && y.Custom? && x.customType == y.customType == PLUGIN_TYPE
    requires EnvelopeOf(codec, x.customPayload).Some? && EnvelopeOf(codec, y.customPayload).Some?
    requires var p, q := EnvelopeOf(codec, x.customPayload).value, EnvelopeOf(codec, y.customPayload).value;
             p.summary == q.summary && p.displayName == q.displayName
    ensures PreviewOf(codec, x) == PreviewOf(codec, y)
  {
  }

  // ---------- what the wire does to it ----------

  /** The plugin card the summary is taken from, if any, has a valid envelope. Only the current
      content of a quote and the first item of a forward are looked at. */
  predicate Faithful(codec: Codec, e: Elem)
    decreases e
  {
    match e
    case Quote(_, _, _, _, current) => current.Some? ==> Faithful(codec, current.value)
    case Forward(_, _, items) => items != [] && items[0].content.Some? ==> Faithful(codec, items[0].content.value)
    case Custom(kind, payload, _, _) => kind == PLUGIN_TYPE ==> EnvelopeOf(codec, payload).Some?
    case _ => true
  }

  lemma ToJsonInjective(p: Preview, q: Preview)
    requires ToJson(p) == ToJson(q)
    ensures p == q
  {
    var x, y := ToJson(p).fields, ToJson(q).fields;
    assert x["k"] == JString(p.k) && y["k"] == JString(q.k);
    assert "a" in x <==> p.a != map[];
    assert "a" in y <==> q.a != map[];
    assert p.a != map[] ==> x["a"] == JObject(p.a);
    assert q.a != map[] ==> y["a"] == JObject(q.a);
  }

  /** Without its envelope a plugin card is summed up as a custom message before the trip and as an
      unsupported placeholder after it; neither counts as empty. */
  lemma CustomFate(codec: Codec, e: Elem)
    requires e.Custom?
    ensures Faithful(codec, e) ==> PreviewOf(codec, Normal(codec, e)) == PreviewOf(codec, e)
    ensures !Faithful(codec, e) ==>
              && PreviewOf(codec, Normal(codec, e)) != PreviewOf(codec, e)
              && !IsEmptyPreview(PreviewOf(codec, Normal(codec, e))) && !IsEmptyPreview(PreviewOf(codec, e))
  {
  }

  lemma QuoteFate(codec: Codec, e: Elem)
    requires e.Quote? && e.currentContent.Some?
    requires var c := e.currentContent.value;
             var p, q := PreviewOf(codec, c), PreviewOf(codec, Normal(codec, c));
             if Faithful(codec, c) then p == q else p != q && !IsEmptyPreview(p) && !IsEmptyPreview(q)
    ensures var p, q := PreviewOf(codec, e), PreviewOf(codec, Normal(codec, e));
            if Faithful(codec, e) then p == q else p != q && !IsEmptyPreview(p) && !IsEmptyPreview(q)
  {
    var c := e.currentContent.value;
    var p, q := PreviewOf(codec, c), PreviewOf(codec, Normal(codec, c));
    var n := Normal(codec, e);
    assert n.currentContent == NormalOption(codec, e.currentContent) == Some(Normal(codec, c));
    assert n.quotedTextPreview == e.quotedTextPreview;
    assert PreviewOf(codec, e) == QuotePreview(codec, e) && PreviewOf(codec, n) == QuotePreview(codec, n);
    if !Faithful(codec, c) {
      if ToJson(p) == ToJson(q) { ToJsonInjective(p, q); }
      assert QuotePreview(codec, e).a["inner"] == ToJson(p);
      assert QuotePreview(codec, n).a["inner"] == ToJson(q);
    }
  }

  lemma ForwardFate(codec: Codec, e: Elem)
    requires e.Forward? && e.items != [] && e.items[0].content.Some?
    requires var c := e.items[0].content.value;
             var p, q := PreviewOf(codec, c), PreviewOf(codec, Normal(codec, c));
             if Faithful(codec, c) then p == q else p != q && !IsEmptyPreview(p) && !IsEmptyPreview(q)
    ensures var p, q := PreviewOf(codec, e), PreviewOf(codec, Normal(codec, e));
            if Faithful(codec, e) then p == q else p != q && !IsEmptyPreview(p) && !IsEmptyPreview(q)
  {
    var c := e.items[0].content.value;
    var p, q := PreviewOf(codec, c), PreviewOf(codec, Normal(codec, c));
    var n := Normal(codec, e);
    NormalItemsLength(codec, e.items);
    assert n.items[0].content == Some(Normal(codec, c));
    assert PreviewOf(codec, e) == ForwardPreview(codec, e) && PreviewOf(codec, n) == ForwardPreview(codec, n);
    if !Faithful(codec, c) && |e.items| > 1 {
      if ToJson(p) == ToJson(q) { ToJsonInjective(p, q); }
      assert ForwardPreview(codec, e).a["first"] == ToJson(p);
      assert ForwardPreview(codec, n).a["first"] == ToJson(q);
    }
  }

  lemma {:induction false} NormalItemsLength(codec: Codec, items: seq<ForwardItemElem>)
    ensures |NormalItems(codec, items)| == |items|
    decreases items
  {
    if items != [] { NormalItemsLength(codec, items[1..]); }
  }

  lemma {:induction false} PreviewFate(codec: Codec, e: Elem)
    ensures var p, q := PreviewOf(codec, e), PreviewOf(codec, Normal(codec, e));
            if Faithful(codec, e) then p == q else p != q && !IsEmptyPreview(p) && !IsEmptyPreview(q)
    decreases e
  {
    if e.Quote? && e.currentContent.Some? {
      PreviewFate(codec, e.currentContent.value);
      QuoteFate(codec, e);
    } else if e.Forward? && e.items != [] && e.items[0].content.Some? {
      PreviewFate(codec, e.items[0].content.value);
      ForwardFate(codec, e);
    } else if e.Custom? {
      CustomFate(codec, e);
    } else {
      SimpleFate(codec, e);
    }
  }

  lemma SimpleFate(codec: Codec, e: Elem)
    requires !e.Custom? && !(e.Quote? && e.currentContent.Some?)
    requires !(e.Forward? && e.items != [] && e.items[0].content.Some?)
    ensures Faithful(codec, e) && PreviewOf(codec, Normal(codec, e)) == PreviewOf(codec, e)
  {
    if e.Forward? { NormalItemsLength(codec, e.items); }
  }

  /** The stored summary survives the wire exactly when the plugin card it is taken from, if it is
      taken from one, has a valid envelope. */
  lemma PreviewPreservedIff(codec: Codec, e: Elem)
    requires Lawful(codec)
    ensures Received(codec, e).Some?
    ensures PreviewOf(codec, Received(codec, e).value) == PreviewOf(codec, e) <==> Faithful(codec, e)
  {
    ReceivedIsNormal(codec, e);
    PreviewFate(codec, e);
  }
}
