/** Both kinds of stirring happen: a run from an empty disk on that registers one token, and the two setter
    calls that can then lead to a second attempt for it. */
module PushRaceRun {
  import opened Prelude
  import opened PushModel
  import opened PushProviders
  import opened PushRace

  const INPUT := TokenInput("fcm", "android", "t")
  const HTTP := HttpClient("e", true, None)
  const SESSION := Session(0, "d", HTTP)
  const ROOT := Root("", Namespace("e", "d"))
  const OTHER := TokenInput("fcm", "android", "u")
  const START := Sys(EMPTY, 0, map[], Idle(NotRun), Net({}, {}, {}, 0), map[])

  lemma To(s: Sys, a: Action, t: Sys)
    requires Reaches(START, s) && Enabled(s, a) && !Stirs(s, a) && t == Next(s, a)
    ensures Reaches(START, t)
  {
    ReachesNext(START, s, a);
  }

  function IntentOf(secret: string): Intent {
    Intent(secret, Digest("e"), "fcm")
  }

  function AttemptOf(confirmed: bool): Attempt {
    Attempt(0, "fcm", InputDigest(INPUT), confirmed)
  }

  /** Attached and permitted with one desired token, before anything is journaled. */
  function Fresh(pc: Pc, calls: nat): Sys {
    Sys(State(true, map["fcm" := INPUT], Some(SESSION), Some(HTTP), Some(Journal(ROOT, [])), map[], None),
        0, map[], pc, Net({}, {}, {}, calls), map[])
  }

  /** The same after the intent of secret "1" was journaled. */
  function Bound(pc: Pc, confirmed: bool, puts: set<Put>, calls: nat): Sys {
    Sys(State(true, map["fcm" := INPUT], Some(SESSION), Some(HTTP), Some(Journal(ROOT, [IntentOf("1")])),
              map[Digest("1") := AttemptOf(confirmed)], None),
        0, map[ROOT := [IntentOf("1")]], pc, Net(puts, {}, {}, calls), map["1" := ROOT])
  }

  const SENT := {Put(Digest("1"), ROOT, "e", "d", INPUT)}

  lemma Attached()
    ensures Reaches(START, Fresh(Idle(NotRun), 0))
  {
    var s0 := START;
    ReachesSelf(START);
    assert ValidInput(INPUT) by { assert INPUT.token == ['t']; }
    var s1 := s0.(m := EMPTY.(desired := map["fcm" := INPUT]));
    To(s0, Update(INPUT), s1);
    var s2 := s1.(m := s1.m.(permission := true));
    To(s1, Permission(true), s2);
    AttachedLast(s2);
  }

  lemma AttachedLast(s2: Sys)
    requires Reaches(START, s2)
    requires s2 == Sys(EMPTY.(desired := map["fcm" := INPUT], permission := true), 0, map[], Idle(NotRun),
                       Net({}, {}, {}, 0), map[])
    ensures Reaches(START, Fresh(Idle(NotRun), 0))
  {
    assert ValidDevice("d");
    var q := AttachRequest(0, true, "d", "", HTTP);
    var s3 := Fresh(Attaching(SESSION), 0).(m := Fresh(Idle(NotRun), 0).m.(session := None));
    To(s2, AttachBegin(q, true), s3);
    To(s3, AttachEnd, Fresh(Idle(NotRun), 0));
  }

  lemma FirstScan()
    ensures Reaches(START, Fresh(Snapshot(HTTP), 0))
  {
    Attached();
    To(Fresh(Idle(NotRun), 0), StartRun, Fresh(Scan(HTTP, []), 0));
    To(Fresh(Scan(HTTP, []), 0), StepScan, Fresh(Snapshot(HTTP), 0));
  }

  lemma FirstRegister()
    ensures Reaches(START, Fresh(RegInspecting(HTTP, SESSION, [INPUT]), 1))
  {
    FirstScan();
    To(Fresh(Snapshot(HTTP), 0), StepSnapshot([INPUT]), Fresh(Register(HTTP, SESSION, [INPUT]), 0));
    To(Fresh(Register(HTTP, SESSION, [INPUT]), 0), StepRegister, Fresh(RegInspecting(HTTP, SESSION, [INPUT]), 1));
  }

  lemma FirstInspect()
    ensures Reaches(START, Fresh(RegJournaling(HTTP, SESSION, [INPUT]), 1))
  {
    FirstRegister();
    To(Fresh(RegInspecting(HTTP, SESSION, [INPUT]), 1), RegInspectAnswer(true),
       Fresh(RegJournaling(HTTP, SESSION, [INPUT]), 1));
  }

  lemma FirstJournal()
    ensures Reaches(START, Bound(RegIssuing(HTTP, SESSION, [INPUT], Digest("1")), false, {}, 1))
  {
    FirstInspect();
    assert [] + [IntentOf("1")] == [IntentOf("1")];
    To(Fresh(RegJournaling(HTTP, SESSION, [INPUT]), 1), StepJournal("1", Saved),
                  Bound(RegIssuing(HTTP, SESSION, [INPUT], Digest("1")), false, {}, 1));
  }

  lemma FirstPut()
    ensures Reaches(START, Bound(RegRechecking(HTTP, SESSION, [INPUT], Digest("1")), false, SENT, 2))
  {
    FirstJournal();
    var id := Digest("1");
    To(Bound(RegIssuing(HTTP, SESSION, [INPUT], id), false, {}, 1), IssuePut,
                  Bound(RegPutting(HTTP, SESSION, [INPUT], id), false, SENT, 2));
    To(Bound(RegPutting(HTTP, SESSION, [INPUT], id), false, SENT, 2), PutAnswer(true),
                  Bound(RegRechecking(HTTP, SESSION, [INPUT], id), false, SENT, 2));
  }

  lemma FirstConfirm()
    ensures Reaches(START, Bound(Register(HTTP, SESSION, []), true, SENT, 2))
  {
    FirstPut();
    var id := Digest("1");
    To(Bound(RegRechecking(HTTP, SESSION, [INPUT], id), false, SENT, 2), StepRegRecheck,
       Bound(RegConfirming(HTTP, SESSION, [INPUT], id), false, SENT, 2));
    assert [INPUT][1..] == [];
    To(Bound(RegConfirming(HTTP, SESSION, [INPUT], id), false, SENT, 2), StepRegConfirm,
       Bound(Register(HTTP, SESSION, []), true, SENT, 2));
  }

  lemma FirstPass()
    ensures Reaches(START, Bound(Idle(RunOk), true, SENT, 2))
  {
    FirstConfirm();
    To(Bound(Register(HTTP, SESSION, []), true, SENT, 2), StepRegister, Bound(Finishing, true, SENT, 2));
    To(Bound(Finishing, true, SENT, 2), StepFinish, Bound(Idle(RunOk), true, SENT, 2));
  }

  lemma SecondScan()
    ensures Reaches(START, Bound(Scan(HTTP, []), true, SENT, 2))
  {
    FirstPass();
    var todo := [IntentOf("1")];
    To(Bound(Idle(RunOk), true, SENT, 2), StartRun, Bound(Scan(HTTP, todo), true, SENT, 2));
    To(Bound(Scan(HTTP, todo), true, SENT, 2), StepScan, Bound(ReadAttempt(HTTP, todo), true, SENT, 2));
    assert todo[1..] == [];
    To(Bound(ReadAttempt(HTTP, todo), true, SENT, 2), StepRead, Bound(Scan(HTTP, []), true, SENT, 2));
  }

  lemma SecondSnapshot()
    ensures Reaches(START, Bound(Snapshot(HTTP), true, SENT, 2))
  {
    SecondScan();
    To(Bound(Scan(HTTP, []), true, SENT, 2), StepScan, Bound(Snapshot(HTTP), true, SENT, 2));
  }

  lemma SecondRegister()
    ensures Reaches(START, Bound(Register(HTTP, SESSION, [INPUT]), true, SENT, 2))
  {
    SecondSnapshot();
    To(Bound(Snapshot(HTTP), true, SENT, 2), StepSnapshot([INPUT]),
                  Bound(Register(HTTP, SESSION, [INPUT]), true, SENT, 2));
  }

  lemma QuietRunTo(s: Sys)
    requires Reaches(START, s)
    ensures exists run :: IsQuietRun(run) && run[|run| - 1] == s
  {
    var path :| IsQuietPath(path) && path[0] == START && path[|path| - 1] == s;
    assert IsQuietRun(path);
  }

  /** A token rotation in front of the second pass's snapshot. */
  lemma RotationHappens()
    ensures exists run :: IsQuietRun(run) && Enabled(run[|run| - 1], Update(OTHER)) && Stirs(run[|run| - 1], Update(OTHER))
  {
    SecondSnapshot();
    var s := Bound(Snapshot(HTTP), true, SENT, 2);
    QuietRunTo(s);
    assert ValidInput(OTHER) by { assert OTHER.token == ['u']; }
    assert InputDigest(INPUT) != InputDigest(OTHER) by {
      var n := |"fcm:android:"|;
      assert InputDigest(INPUT).text[n] == 't' && InputDigest(OTHER).text[n] == 'u';
    }
    assert Digest("1") in s.m.attempts && Passed(s, Digest("1"));
    assert Stirs(s, Update(OTHER));
  }

  /** Permission going off and on again around the check of the second pass. */
  lemma FlickerHappens()
    ensures exists run :: IsQuietRun(run) && Stirs(run[|run| - 1], Permission(true))
  {
    SecondRegister();
    var s := Bound(Register(HTTP, SESSION, [INPUT]), true, SENT, 2);
    var off := s.(m := s.m.(permission := false));
    To(s, Permission(false), off);
    var u := off.(pc := RegInspecting(HTTP, SESSION, [INPUT]), net := Called(off.net));
    To(off, StepRegister, u);
    QuietRunTo(u);
    assert Digest("1") in u.m.attempts && !Unattempted(u.m, "fcm");
    assert !Wanted(u) && Wanted(Next(u, Permission(true)));
  }

  /** So runs with two attempts for one provider exist, by either kind of call. */
  lemma InterruptedPassCanDuplicate()
    ensures exists run :: IsQuietRun(run) && Enabled(run[|run| - 1], Update(OTHER)) && CanDuplicate(Next(run[|run| - 1], Update(OTHER)))
    ensures exists run :: IsQuietRun(run) && CanDuplicate(Next(run[|run| - 1], Permission(true)))
  {
    RotationHappens();
    var r :| IsQuietRun(r) && Enabled(r[|r| - 1], Update(OTHER)) && Stirs(r[|r| - 1], Update(OTHER));
    DuplicatesIffStirred(r, Update(OTHER));
    FlickerHappens();
    var f :| IsQuietRun(f) && Stirs(f[|f| - 1], Permission(true));
    DuplicatesIffStirred(f, Permission(true));
  }
}
