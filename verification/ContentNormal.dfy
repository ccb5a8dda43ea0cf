/** Sending an element over the wire and reading it back: what comes back, when it is the same
    element, and that a second trip changes nothing. */
module ContentNormal {
  import opened Prelude
  import opened Content

  /** What the receiver makes of a sent element. */
  function Received(codec: Codec, e: Elem): Option<Elem> {
    ProtoToElem(codec, ElemToProto(codec, e))
  }

  // ---------- the normal form, stated on elements alone ----------

  function NormalTime(t: Option<u64>): Option<u64> {
    match t
    case None => None
    case Some(ms) => if ms == 0 then None else if ms > I64_MAX then Some(I64_MAX) else Some(ms)
  }

  function NormalOption(codec: Codec, o: Option<Elem>): Option<Elem>
    decreases o
  {
    match o
    case None => None
    case Some(e) => Some(Normal(codec, e))
  }

  function NormalItems(codec: Codec, items: seq<ForwardItemElem>): seq<ForwardItemElem>
    decreases items
  {
    if items == [] then []
    else
      [items[0].(sourceTimeMs := NormalTime(items[0].sourceTimeMs), content := NormalOption(codec, items[0].content))]
      + NormalItems(codec, items[1..])
  }

  /** The element that comes back: only plugin cards, mini-program attributes and forward times
      are touched, at any depth. */
  function Normal(codec: Codec, e: Elem): Elem
    decreases e
  {
    match e
    case Quote(_, _, _, quoted, current) =>
      e.(quotedContent := NormalOption(codec, quoted), currentContent := NormalOption(codec, current))
    case Forward(_, _, items) => e.(items := NormalItems(codec, items))
    case Thread(_, _, root, _) => e.(rootContent := NormalOption(codec, root))
    case MiniProgram(_, _, _, _, extra) => e.(miniExtra := extra - {"page_path"})
    case Custom(_, _, _, _) => NormalCustom(codec, e)
    case _ => e
  }

  function NormalCustom(codec: Codec, e: Elem): Elem
    requires e.Custom?
  {
    var envelope := EnvelopeOf(codec, e.customPayload);
    if e.customType != PLUGIN_TYPE then e
    else if envelope.None? then Placeholder("unsupported", [], "", map[])
    else e.(customDescription := envelope.value.summary)
  }

  // ---------- reading back what was sent ----------

  lemma MapSeqInverse<A, B>(f: A -> B, g: B -> A, s: seq<A>)
    requires forall a :: g(f(a)) == a
    ensures MapSeq(g, MapSeq(f, s)) == s
  {
  }

  lemma MapOptionInverse<A, B>(f: A -> B, g: B -> A, o: Option<A>)
    requires forall a :: g(f(a)) == a
    ensures MapOption(g, MapOption(f, o)) == o
  {
  }

  lemma CopiesBack()
    ensures forall m :: MentionOut(MentionIn(m)) == m
    ensures forall i :: ImageOut(ImageIn(i)) == i
    ensures forall v :: VideoOut(VideoIn(v)) == v
    ensures forall a :: AudioOut(AudioIn(a)) == a
  {
  }

  lemma {:induction false} StringsReadBack(s: seq<string>)
    ensures OnlyStrings(Strings(s).items) == s
  {
    if s != [] {
      StringsReadBack(s[1..]);
      assert Strings(s).items[1..] == Strings(s[1..]).items;
      assert s == [s[0]] + s[1..];
    }
  }

  predicate IsAppCard(e: Elem) {
    e.MiniProgram? || e.Vote? || e.Task? || e.Schedule? || e.Announcement?
  }

  predicate IsNested(e: Elem) {
    e.Quote? || e.Forward? || e.Thread?
  }

  predicate IsMedia(e: Elem) {
    e.Text? || e.Image? || e.Video? || e.Audio? || e.ImageGroup?
  }

  lemma MediaReceived(codec: Codec, e: Elem)
    requires IsMedia(e)
    ensures Received(codec, e) == Some(e)
  {
    CopiesBack();
    match e
    case Text(_, mentions) => MapSeqInverse(MentionIn, MentionOut, mentions);
    case Image(source, thumbnail, _, _) =>
      MapOptionInverse(ImageIn, ImageOut, source);
      MapOptionInverse(ImageIn, ImageOut, thumbnail);
    case Video(_, source, cover, _) =>
      MapOptionInverse(VideoIn, VideoOut, source);
      MapOptionInverse(ImageIn, ImageOut, cover);
    case Audio(_, source, _) => MapOptionInverse(AudioIn, AudioOut, source);
    case ImageGroup(images, _, _) => MapSeqInverse(ImageIn, ImageOut, images);
  }

  lemma PlainReceived(codec: Codec, e: Elem)
    requires !IsMedia(e) && !IsAppCard(e) && !IsNested(e) && !e.Custom?
    ensures Received(codec, e) == Some(e)
  {
  }

  lemma CustomReceived(codec: Codec, e: Elem)
    requires e.Custom?
    ensures Received(codec, e) == Some(Normal(codec, e))
  {
  }

  lemma PayloadReadsBack(codec: Codec, card: AppCard, payload: map<string, Json>)
    requires Lawful(codec) && PlainObject(payload)
    ensures PayloadOf(codec, WithJson(codec, card, payload)) == payload
  {
  }

  lemma MiniProgramReceived(codec: Codec, e: Elem)
    requires Lawful(codec) && e.MiniProgram?
    ensures Received(codec, e) == Some(Normal(codec, e))
  {
    var card := NewCard(e.appId, "mini_program", e.miniTitle).(thumbnailUrl := e.miniThumbnailUrl, attributes := e.miniExtra);
    PayloadReadsBack(codec, card, map["page_path" := JString(e.pagePath)]);
  }

  lemma VoteReceived(codec: Codec, e: Elem)
    requires Lawful(codec) && e.Vote?
    ensures Received(codec, e) == Some(e)
  {
    var card := NewCard("", "vote", e.voteTitle).(summary := JoinComma(e.options), attributes := e.voteMetadata);
    PayloadReadsBack(codec, card, map["vote_id" := JString(e.voteId), "options" := Strings(e.options),
                                      "participant_user_ids" := Strings(e.voteParticipants)]);
    StringsReadBack(e.options);
    StringsReadBack(e.voteParticipants);
  }

  lemma TaskReceived(codec: Codec, e: Elem)
    requires Lawful(codec) && e.Task?
    ensures Received(codec, e) == Some(e)
  {
    var card := NewCard("", "task", e.taskTitle).(attributes := e.taskMetadata);
    PayloadReadsBack(codec, card, map["task_id" := JString(e.taskId), "status" := JString(e.status),
                                      "participant_user_ids" := Strings(e.taskParticipants)]);
    StringsReadBack(e.taskParticipants);
  }

  lemma ScheduleReceived(codec: Codec, e: Elem)
    requires Lawful(codec) && e.Schedule?
    ensures Received(codec, e) == Some(e)
  {
    var card := NewCard("", "schedule", e.scheduleTitle).(attributes := e.scheduleMetadata);
    PayloadReadsBack(codec, card, map["schedule_id" := JString(e.scheduleId), "start_time_ms" := JNumber(e.startTime),
                                      "end_time_ms" := JNumber(e.endTime),
                                      "participant_user_ids" := Strings(e.scheduleParticipants)]);
    StringsReadBack(e.scheduleParticipants);
  }

  lemma AnnouncementReceived(codec: Codec, e: Elem)
    requires Lawful(codec) && e.Announcement?
    ensures Received(codec, e) == Some(e)
  {
    var card := NewCard("", "announcement", e.announcementTitle).(summary := e.announcementBody, attributes := e.announcementMetadata);
    PayloadReadsBack(codec, card, map["pinned" := JBool(e.pinned)]);
  }

  lemma AppCardReceived(codec: Codec, e: Elem)
    requires Lawful(codec) && IsAppCard(e)
    ensures Received(codec, e) == Some(Normal(codec, e))
  {
    match e
    case MiniProgram(_, _, _, _, _) => MiniProgramReceived(codec, e);
    case Vote(_, _, _, _, _) => VoteReceived(codec, e);
    case Task(_, _, _, _, _) => TaskReceived(codec, e);
    case Schedule(_, _, _, _, _, _) => ScheduleReceived(codec, e);
    case Announcement(_, _, _, _) => AnnouncementReceived(codec, e);
  }

  lemma {:induction false} OptionReceived(codec: Codec, o: Option<Elem>)
    requires Lawful(codec)
    ensures OptionToElem(codec, OptionToMessage(codec, o)) == NormalOption(codec, o)
    decreases o
  {
    if o.Some? {
      ReceivedIsNormal(codec, o.value);
    }
  }

  lemma {:induction false} ItemsReceived(codec: Codec, items: seq<ForwardItemElem>)
    requires Lawful(codec)
    ensures ItemsToElem(codec, ItemsToProto(codec, items)) == NormalItems(codec, items)
    decreases items
  {
    if items != [] {
      OptionReceived(codec, items[0].content);
      ItemsReceived(codec, items[1..]);
      assert ItemsToProto(codec, items)[1..] == ItemsToProto(codec, items[1..]);
    }
  }

  /** A nested element comes back as its normal form once its parts do. */
  lemma QuoteReceived(codec: Codec, e: Elem)
    requires e.Quote?
    requires OptionToElem(codec, OptionToMessage(codec, e.quotedContent)) == NormalOption(codec, e.quotedContent)
    requires OptionToElem(codec, OptionToMessage(codec, e.currentContent)) == NormalOption(codec, e.currentContent)
    ensures Received(codec, e) == Some(Normal(codec, e))
  {
  }

  lemma ForwardReceived(codec: Codec, e: Elem)
    requires e.Forward? && ItemsToElem(codec, ItemsToProto(codec, e.items)) == NormalItems(codec, e.items)
    ensures Received(codec, e) == Some(Normal(codec, e))
  {
  }

  lemma ThreadReceived(codec: Codec, e: Elem)
    requires e.Thread?
    requires OptionToElem(codec, OptionToMessage(codec, e.rootContent)) == NormalOption(codec, e.rootContent)
    ensures Received(codec, e) == Some(Normal(codec, e))
  {
  }

  lemma FlatReceived(codec: Codec, e: Elem)
    requires Lawful(codec) && !IsNested(e)
    ensures Received(codec, e) == Some(Normal(codec, e))
  {
    if IsAppCard(e) { AppCardReceived(codec, e); }
    else if IsMedia(e) { MediaReceived(codec, e); }
    else if e.Custom? { CustomReceived(codec, e); }
    else { PlainReceived(codec, e); }
  }

  /** The converters, composed: sending is total, and what comes back is the normal form. */
  lemma {:induction false} ReceivedIsNormal(codec: Codec, e: Elem)
    requires Lawful(codec)
    ensures Received(codec, e) == Some(Normal(codec, e))
    decreases e
  {
    match e
    case Quote(_, _, _, quoted, current) =>
      OptionReceived(codec, quoted);
      OptionReceived(codec, current);
      QuoteReceived(codec, e);
    case Forward(_, _, items) =>
      ItemsReceived(codec, items);
      ForwardReceived(codec, e);
    case Thread(_, _, root, _) =>
      OptionReceived(codec, root);
      ThreadReceived(codec, e);
    case _ => FlatReceived(codec, e);
  }

  // ---------- when nothing changes ----------

  predicate StableTime(t: Option<u64>) {
    t.Some? ==> 1 <= t.value <= I64_MAX
  }

  predicate StableOption(codec: Codec, o: Option<Elem>)
    decreases o
  {
    match o
    case None => true
    case Some(e) => Stable(codec, e)
  }

  predicate StableItems(codec: Codec, items: seq<ForwardItemElem>)
    decreases items
  {
    items == [] ||
    (StableTime(items[0].sourceTimeMs) && StableOption(codec, items[0].content) && StableItems(codec, items[1..]))
  }

  /** Everywhere inside the element: no mini-program carries a `page_path` attribute, every forward
      time is absent or fits, every plugin card has a valid envelope whose summary it repeats. */
  predicate Stable(codec: Codec, e: Elem)
    decreases e
  {
    match e
    case Quote(_, _, _, quoted, current) => StableOption(codec, quoted) && StableOption(codec, current)
    case Forward(_, _, items) => StableItems(codec, items)
    case Thread(_, _, root, _) => StableOption(codec, root)
    case MiniProgram(_, _, _, _, extra) => "page_path" !in extra
    case Custom(kind, payload, description, _) =>
      kind == PLUGIN_TYPE ==>
        EnvelopeOf(codec, payload).Some? && EnvelopeOf(codec, payload).value.summary == description
    case _ => true
  }

  lemma {:induction false} OptionUnchanged(codec: Codec, o: Option<Elem>)
    ensures NormalOption(codec, o) == o <==> StableOption(codec, o)
    decreases o
  {
    if o.Some? { NormalUnchanged(codec, o.value); }
  }

  lemma {:induction false} ItemsUnchanged(codec: Codec, items: seq<ForwardItemElem>)
    ensures NormalItems(codec, items) == items <==> StableItems(codec, items)
    decreases items
  {
    if items != [] {
      OptionUnchanged(codec, items[0].content);
      ItemsUnchanged(codec, items[1..]);
      var out := NormalItems(codec, items);
      assert out[0] == items[0] && out[1..] == items[1..] <==> out == items by {
        assert out == [out[0]] + out[1..] && items == [items[0]] + items[1..];
      }
    }
  }

  lemma {:induction false} NormalUnchanged(codec: Codec, e: Elem)
    ensures Normal(codec, e) == e <==> Stable(codec, e)
    decreases e
  {
    match e
    case Quote(_, _, _, quoted, current) =>
      OptionUnchanged(codec, quoted);
      OptionUnchanged(codec, current);
    case Forward(_, _, items) => ItemsUnchanged(codec, items);
    case Thread(_, _, root, _) => OptionUnchanged(codec, root);
    case MiniProgram(_, _, _, _, extra) =>
      assert extra - {"page_path"} == extra <==> "page_path" !in extra;
    case _ =>
  }

  /** An element comes back unchanged exactly when it is stable: the two converters are inverse on
      the stable elements and on no others. */
  lemma UnchangedIffStable(codec: Codec, e: Elem)
    requires Lawful(codec)
    ensures Received(codec, e) == Some(e) <==> Stable(codec, e)
  {
    ReceivedIsNormal(codec, e);
    NormalUnchanged(codec, e);
  }

  lemma {:induction false} OptionBecomesStable(codec: Codec, o: Option<Elem>)
    ensures StableOption(codec, NormalOption(codec, o))
    decreases o
  {
    if o.Some? { NormalIsStable(codec, o.value); }
  }

  lemma {:induction false} ItemsBecomeStable(codec: Codec, items: seq<ForwardItemElem>)
    ensures StableItems(codec, NormalItems(codec, items))
    decreases items
  {
    if items != [] {
      OptionBecomesStable(codec, items[0].content);
      ItemsBecomeStable(codec, items[1..]);
      assert NormalItems(codec, items)[1..] == NormalItems(codec, items[1..]);
    }
  }

  lemma {:induction false} NormalIsStable(codec: Codec, e: Elem)
    ensures Stable(codec, Normal(codec, e))
    decreases e
  {
    match e
    case Quote(_, _, _, quoted, current) =>
      OptionBecomesStable(codec, quoted);
      OptionBecomesStable(codec, current);
    case Forward(_, _, items) => ItemsBecomeStable(codec, items);
    case Thread(_, _, root, _) => OptionBecomesStable(codec, root);
    case _ =>
  }

  /** A second trip over the wire changes nothing: the normal form is reached at once. */
  lemma SecondTripUnchanged(codec: Codec, e: Elem)
    requires Lawful(codec)
    ensures Received(codec, e).Some?
    ensures Received(codec, Received(codec, e).value) == Received(codec, e)
  {
    ReceivedIsNormal(codec, e);
    NormalIsStable(codec, e);
    UnchangedIffStable(codec, Normal(codec, e));
  }

  // ---------- neither converter undoes the other everywhere ----------

  const PAGED := MiniProgram("a", "", "", "", map["page_path" := "p"])

  const UNTIMED := ForwardItemElem(None, None, None, None, Some(0), 0, "", None)

  const FORWARDED := Forward(0, None, [UNTIMED])

  lemma UntimedNormal(codec: Codec)
    ensures NormalItems(codec, [UNTIMED]) == [UNTIMED.(sourceTimeMs := None)]
  {
    var rest := [UNTIMED][1..];
    assert rest == [] && NormalItems(codec, rest) == [];
  }

  /** Elements that come back changed: a mini-program attribute, a forward time and a plugin card
      without an envelope, one for each exception. */
  lemma NotInverse(codec: Codec, payload: Bytes)
    requires Lawful(codec) && EnvelopeOf(codec, payload).None?
    ensures Received(codec, PAGED) == Some(PAGED.(miniExtra := map[]))
    ensures Received(codec, FORWARDED) == Some(FORWARDED.(items := [UNTIMED.(sourceTimeMs := None)]))
    ensures Received(codec, Custom(PLUGIN_TYPE, payload, "d", map[])) == Some(Placeholder("unsupported", [], "", map[]))
  {
    MiniProgramReceived(codec, PAGED);
    assert PAGED.miniExtra - {"page_path"} == map[];
    ReceivedIsNormal(codec, FORWARDED);
    UntimedNormal(codec);
    CustomReceived(codec, Custom(PLUGIN_TYPE, payload, "d", map[]));
  }

  /** The wire value is read, and writing what was read gives it back. */
  predicate Survives(codec: Codec, p: Proto) {
    ProtoToElem(codec, p).Some? && ElemToProto(codec, ProtoToElem(codec, p).value) == p
  }

  /** The other way round: a wire value survives being read and written again exactly when it is what
      some stable element is written as. So the converters are inverse bijections between the stable
      elements and these wire values, and between no larger sets. */
  lemma SurvivesIffWritten(codec: Codec, p: Proto)
    requires Lawful(codec)
    ensures Survives(codec, p) <==> exists e :: Stable(codec, e) && ElemToProto(codec, e) == p
  {
    if Survives(codec, p) {
      UnchangedIffStable(codec, ProtoToElem(codec, p).value);
    }
    forall e | Stable(codec, e) && ElemToProto(codec, e) == p
      ensures Survives(codec, p)
    {
      UnchangedIffStable(codec, e);
    }
  }
}
