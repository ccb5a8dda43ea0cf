/** Room in the journal: once the scan is over, every journaled binding has an attempt, so with one
    attempt per provider the registration loop never meets the capacity. */
module PushRoom {
  import opened Prelude
  import opened PushModel
  import opened PushSafety
  import opened PushProviders

  ghost predicate ValidInputs(inputs: seq<TokenInput>) {
    forall i :: 0 <= i < |inputs| ==> ValidProvider(inputs[i].provider)
  }

  ghost predicate ValidAttempts(m: State) {
    forall id :: id in m.attempts ==> ValidProvider(m.attempts[id].provider)
  }

  /** The scan has still to look at every journaled binding without an attempt. */
  ghost predicate TidyPc(s: Sys) {
    && (InScan(s.pc) ==> Ids(Entries(s.m)) <= s.m.attempts.Keys + Ids(s.pc.todo))
    && (s.pc.Confirming? && s.pc.todo != [] ==> s.pc.todo[0].Id() in s.m.attempts)
    && (s.pc.Snapshot? || InRegister(s.pc) ==> Ids(Entries(s.m)) <= s.m.attempts.Keys)
    && (InRegister(s.pc) ==> ValidInputs(s.pc.inputs))
  }

  ghost predicate Tidy(s: Sys) {
    ValidAttempts(s.m) && TidyPc(s)
  }

  lemma TidyMoves(s: Sys, t: Sys)
    requires Tidy(s) && t.m.attempts == s.m.attempts && Entries(t.m) == Entries(s.m) && TidyPc(t)
    ensures Tidy(t)
  {
  }

  /** Setters and the environment change neither journal nor attempts, except that a crash loses both. */
  lemma EnvironmentTidy(s: Sys, a: Action)
    requires IsEnvironment(a) && Enabled(s, a) && Tidy(s)
    ensures Tidy(Next(s, a))
  {
    var t := Next(s, a);
    if a.Crash? || a.Cancel? {
      assert t.pc.Idle?;
    } else {
      assert t.pc == s.pc && t.m.attempts == s.m.attempts && Entries(t.m) == Entries(s.m);
    }
  }

  lemma ConfigureTidy(s: Sys, http: HttpClient, base: string, device: string, opens: bool)
    requires ValidAttempts(s.m)
    ensures ValidAttempts(ConfigureLocked(s.m, s.disk, http, base, device, opens).state)
  {
  }

  lemma AttachBeginTidy(s: Sys, q: AttachRequest, opens: bool)
    requires s.pc.Idle? && Tidy(s)
    ensures Tidy(NextAttachBegin(s, q, opens))
  {
    ConfigureTidy(s, q.http, q.base, q.device, opens);
  }

  // ---------- the scan ----------

  lemma StartTidy(s: Sys)
    requires s.pc.Idle? && Tidy(s)
    ensures Tidy(NextStart(s))
  {
  }

  lemma TailIds(todo: seq<Intent>)
    requires todo != []
    ensures Ids(todo) == {todo[0].Id()} + Ids(todo[1..])
  {
    assert todo == [todo[0]] + todo[1..];
  }

  lemma ScanTidy(s: Sys)
    requires s.pc.Scan? && Tidy(s)
    ensures Tidy(NextScan(s))
  {
    assert Ids([]) == {};
    TidyMoves(s, NextScan(s));
  }

  lemma ReadTidy(s: Sys)
    requires s.pc.ReadAttempt? && s.pc.todo != [] && Tidy(s)
    ensures Tidy(NextRead(s))
  {
    TailIds(s.pc.todo);
    TidyMoves(s, NextRead(s));
  }

  /** Staying at the same intent. */
  lemma StayTidy(s: Sys, t: Sys)
    requires InScan(s.pc) && Tidy(s) && t.m == s.m
    requires t.pc.Idle? || (InScan(t.pc) && t.pc.todo == s.pc.todo)
    requires t.pc.Confirming? && t.pc.todo != [] ==> t.pc.todo[0].Id() in t.m.attempts
    ensures Tidy(t)
  {
  }

  lemma ConfirmTidy(s: Sys)
    requires s.pc.Confirming? && s.pc.todo != [] && Tidy(s)
    ensures Tidy(NextConfirm(s))
  {
    TailIds(s.pc.todo);
    assert Confirm(s.m, s.pc.todo[0].Id()).attempts.Keys == s.m.attempts.Keys;
  }

  lemma RemoveTidy(s: Sys, save: SaveResult)
    requires s.pc.Removing? && s.pc.todo != [] && Tidy(s)
    ensures Tidy(NextRemove(s, save))
  {
    TailIds(s.pc.todo);
    var t := NextRemove(s, save);
    if t.pc.Scan? {
      var id := s.pc.todo[0].Id();
      assert t.m.attempts == s.m.attempts - {id};
      assert Ids(Entries(t.m)) <= Ids(Entries(s.m)) - {id};
    }
  }

  // ---------- the registration loop ----------

  lemma SnapshotTidy(s: Sys, order: seq<TokenInput>)
    requires s.pc.Snapshot? && Enumerates(order, s.m.desired) && Tidy(s) && DesiredInv(s.m.desired)
    ensures Tidy(NextSnapshot(s, order))
  {
    TidyMoves(s, NextSnapshot(s, order));
  }

  /** Moving in the loop, at the same input or past it. */
  lemma LoopTidy(s: Sys, t: Sys)
    requires InRegister(s.pc) && Tidy(s)
    requires t.m.attempts.Keys == s.m.attempts.Keys && ValidAttempts(t.m) && Entries(t.m) == Entries(s.m)
    requires t.pc.Idle? || t.pc.Finishing? || (InRegister(t.pc) && Suffix(t.pc.inputs, s.pc.inputs))
    ensures Tidy(t)
  {
  }

  lemma JournalTidy(s: Sys, secret: string, save: SaveResult)
    requires s.pc.RegJournaling? && s.pc.inputs != [] && Tidy(s)
    ensures Tidy(NextJournal(s, secret, save))
  {
    var t := NextJournal(s, secret, save);
    if t.pc.RegIssuing? {
      assert Ids(Entries(t.m)) <= Ids(Entries(s.m)) + {Digest(secret)};
      assert t.m.attempts.Keys == s.m.attempts.Keys + {Digest(secret)};
    }
  }

  lemma RegisterTidy(s: Sys)
    requires s.pc.Register? && Tidy(s)
    ensures Tidy(NextRegister(s))
  {
    LoopTidy(s, NextRegister(s));
  }

  lemma RegRecheckTidy(s: Sys)
    requires s.pc.RegRechecking? && s.pc.inputs != [] && Tidy(s)
    ensures Tidy(NextRegRecheck(s))
  {
    LoopTidy(s, NextRegRecheck(s));
  }

  lemma RegConfirmTidy(s: Sys)
    requires s.pc.RegConfirming? && s.pc.inputs != [] && Tidy(s)
    ensures Tidy(NextRegConfirm(s))
  {
    assert Confirm(s.m, s.pc.id).attempts.Keys == s.m.attempts.Keys;
    LoopTidy(s, NextRegConfirm(s));
  }

  lemma ScanStepTidy(s: Sys, a: Action)
    requires IsScanStep(a) && Enabled(s, a) && Tidy(s)
    ensures Tidy(Next(s, a))
  {
    match a
    case StartRun => StartTidy(s);
    case StepScan => ScanTidy(s);
    case StepRead => ReadTidy(s);
    case InspectAnswer(valid, active) => StayTidy(s, NextInspected(s, valid, active));
    case StepRecheck => StayTidy(s, NextRecheck(s));
    case StepConfirm => ConfirmTidy(s);
    case RevokeAnswer(success) => StayTidy(s, NextRevoked(s, success));
  }

  lemma LoopStepTidy(s: Sys, a: Action)
    requires (IsRegisterStep(a) || a.IssuePut?) && Enabled(s, a) && Tidy(s) && DesiredInv(s.m.desired)
    ensures Tidy(Next(s, a))
  {
    match a
    case StepSnapshot(order) => SnapshotTidy(s, order);
    case StepRegister => RegisterTidy(s);
    case RegInspectAnswer(valid) => LoopTidy(s, NextRegInspected(s, valid));
    case IssuePut => LoopTidy(s, NextPut(s));
    case PutAnswer(success) => LoopTidy(s, NextPutAnswered(s, success));
    case StepRegRecheck => RegRecheckTidy(s);
    case StepRegConfirm => RegConfirmTidy(s);
    case StepFinish => FinishTidy(s);
  }

  lemma FinishTidy(s: Sys)
    requires s.pc.Finishing? && Tidy(s)
    ensures Tidy(NextFinish(s))
  {
  }

  lemma AttachEndTidy(s: Sys)
    requires s.pc.Attaching? && Tidy(s)
    ensures Tidy(NextAttachEnd(s))
  {
  }

  lemma NextConfigureTidy(s: Sys, http: HttpClient, base: string, device: string, opens: bool)
    requires s.pc.Idle? && Tidy(s)
    ensures Tidy(NextConfigure(s, http, base, device, opens))
  {
    ConfigureTidy(s, http, base, device, opens);
  }

  lemma TidyKeeps(s: Sys, a: Action)
    requires DesiredInv(s.m.desired) && Tidy(s) && Enabled(s, a)
    ensures Tidy(Next(s, a))
  {
    if IsEnvironment(a) { EnvironmentTidy(s, a); }
    else if IsScanStep(a) { ScanStepTidy(s, a); }
    else if IsRegisterStep(a) || a.IssuePut? { LoopStepTidy(s, a); }
    else if a.Configure? { NextConfigureTidy(s, a.http, a.base, a.device, a.opens); }
    else if a.AttachBegin? { AttachBeginTidy(s, a.request, a.opens); }
    else if a.AttachEnd? { AttachEndTidy(s); }
    else if a.StepRemove? { RemoveTidy(s, a.save); }
    else { JournalTidy(s, a.secret, a.save); }
  }

  lemma {:induction false} RunTidy(run: seq<Sys>, i: nat)
    requires IsRun(run) && i < |run|
    ensures Tidy(run[i])
  {
    if i > 0 {
      RunTidy(run, i - 1);
      RunInv(run, i - 1);
      var s, t := run[i - 1], run[(i - 1) + 1];
      assert Step(s, t);
      var a :| Enabled(s, a) && t == Next(s, a);
      TidyKeeps(s, a);
    }
  }

  // ---------- at most three ----------

  lemma FewAttempts(s: Sys)
    requires Tidy(s) && InRegister(s.pc) && OnePerProvider(s.m) && DistinctIds(Entries(s.m))
    ensures |Entries(s.m)| <= 3
  {
    var ids := Ids(Entries(s.m));
    IdsBound(Entries(s.m));
    ProvidersSize(s.m, ids);
    var valid := {"apns", "fcm", "getui"};
    assert Providers(s.m, ids) <= valid;
    SubsetSize(Providers(s.m, ids), valid);
  }

  /** In every run without a stirring setter call the registration loop finds at most three journaled
      bindings, so the capacity of sixty-four never turns a registration away. */
  lemma JournalHasRoom(run: seq<Sys>, i: nat)
    requires IsQuietRun(run) && i < |run| && InRegister(run[i].pc)
    ensures |Entries(run[i].m)| <= 3 < CAPACITY
  {
    QuietRunIsRun(run);
    QuietRunInv(run, i);
    RunTidy(run, i);
    RunInv(run, i);
    InvStatus(run[i]);
    FewAttempts(run[i]);
  }
}
