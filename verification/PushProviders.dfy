/** At most one binding attempt per provider, and what the `registered` status then means. */
module PushProviders {
  import opened Prelude
  import opened PushModel
  import opened PushSafety

  ghost predicate OnePerProvider(m: State) {
    forall x, y :: x in m.attempts && y in m.attempts && m.attempts[x].provider == m.attempts[y].provider ==> x == y
  }

  // ---------- what can make a pass register a provider twice ----------

  /** The session is gone for the rest of a pass: nothing can be attached before the pass ends. */
  predicate Gone(s: Sys) {
    s.m.session.None? || s.m.session.value.epoch < s.generation
  }

  /** The scan leaves this attempt standing and does not compare it with the desired input again. */
  predicate Passed(s: Sys, id: Digest)
    requires id in s.m.attempts
  {
    || s.pc.Snapshot?
    || (InScan(s.pc) && id !in Ids(s.pc.todo))
    || (s.pc.Confirming? && s.pc.todo != [] && id == s.pc.todo[0].Id())
    || (s.pc.ReadAttempt? && s.pc.todo != [] && id == s.pc.todo[0].Id() && s.m.attempts[id].confirmed)
  }

  ghost predicate Unattempted(m: State, provider: string) {
    forall id :: id in m.attempts ==> m.attempts[id].provider != provider
  }

  /** Between the check for a registration and the insertion of a new one. */
  predicate Checked(pc: Pc) {
    (pc.RegInspecting? || pc.RegJournaling?) && pc.inputs != []
  }

  /** The insertion would go ahead now. */
  predicate Wanted(s: Sys)
    requires Checked(s.pc)
  {
    StillDesired(s.m, s.generation, s.pc.session, s.pc.inputs[0])
  }

  /** The setter calls that reach into a running pass: another token for an attempt that the scan has
      passed, and making an input wanted again that the check found unregistered although it has an
      attempt. */
  ghost predicate Stirs(s: Sys, a: Action)
    requires Enabled(s, a)
  {
    && (a.Update? || a.Permission?)
    && if Checked(s.pc) then !Unattempted(s.m, s.pc.inputs[0].provider) && !Wanted(s) && Wanted(Next(s, a))
       else a.Update? && !Gone(s) &&
            exists id :: id in s.m.attempts && Passed(s, id) && s.m.attempts[id].provider == a.input.provider
                         && s.m.attempts[id].digest != InputDigest(a.input)
  }

  /** A transition that does not stir. Every other setter call, detaching, generation changes,
      failures, cancellation and crashes are allowed, in the middle of a pass too. */
  ghost predicate QuietStep(s: Sys, t: Sys) {
    exists a :: Enabled(s, a) && t == Next(s, a) && !Stirs(s, a)
  }

  ghost predicate IsQuietRun(run: seq<Sys>) {
    |run| > 0 && Init(run[0]) && forall i :: 0 <= i < |run| - 1 ==> QuietStep(run[i], run[i + 1])
  }

  lemma QuietRunIsRun(run: seq<Sys>)
    requires IsQuietRun(run)
    ensures IsRun(run)
  {
    forall i | 0 <= i < |run| - 1
      ensures Step(run[i], run[i + 1])
    {
      assert QuietStep(run[i], run[i + 1]);
    }
  }

  // ---------- the invariant of quiet runs ----------

  /** The attempt is for the desired input and the attached session, as far as there are any. */
  predicate Fits(m: State, a: Attempt) {
    && (a.provider in m.desired ==> InputDigest(m.desired[a.provider]) == a.digest)
    && (m.session.Some? ==> m.session.value.epoch == a.epoch)
  }

  predicate Settled(m: State, a: Attempt) {
    a.confirmed && Fits(m, a)
  }

  ghost predicate SettledBut(m: State, todo: seq<Intent>) {
    forall id :: id in m.attempts && id !in Ids(todo) ==> Settled(m, m.attempts[id])
  }

  predicate HeadFits(s: Sys)
    requires InScan(s.pc)
  {
    (s.pc.ReadAttempt? || s.pc.Confirming?) && s.pc.todo != [] ==>
      var id := s.pc.todo[0].Id();
      id in s.m.attempts && (s.pc.Confirming? || s.m.attempts[id].confirmed ==> Fits(s.m, s.m.attempts[id]))
  }

  ghost predicate ScanInv(s: Sys)
    requires InScan(s.pc)
  {
    !Gone(s) ==> SettledBut(s.m, s.pc.todo) && HeadFits(s)
  }

  ghost predicate DistinctProviders(inputs: seq<TokenInput>) {
    forall i, j :: 0 <= i < j < |inputs| ==> inputs[i].provider != inputs[j].provider
  }

  /** The attempts for inputs still ahead are confirmed ones for these very inputs. */
  ghost predicate SettledAmong(m: State, epoch: nat, inputs: seq<TokenInput>) {
    forall id, i :: id in m.attempts && 0 <= i < |inputs| && inputs[i].provider == m.attempts[id].provider ==>
      m.attempts[id].confirmed && m.attempts[id].digest == InputDigest(inputs[i]) && m.attempts[id].epoch == epoch
  }

  /** Inputs still ahead in the registration loop. */
  function Ahead(pc: Pc): seq<TokenInput>
    requires InRegister(pc)
  {
    if pc.Register? || pc.RegInspecting? || pc.RegJournaling? || pc.inputs == [] then pc.inputs else pc.inputs[1..]
  }

  /** What is attached is still the session of the registration loop, or nothing is. */
  predicate LoopSession(s: Sys)
    requires InRegister(s.pc)
  {
    s.pc.session.epoch <= s.generation && (s.m.session.Some? ==> s.m.session.value == s.pc.session)
  }

  ghost predicate RegisterInv(s: Sys)
    requires InRegister(s.pc)
  {
    && DistinctProviders(s.pc.inputs)
    && LoopSession(s)
    && (!Gone(s) ==>
          && SettledAmong(s.m, s.pc.session.epoch, Ahead(s.pc))
          && (Checked(s.pc) ==> Unattempted(s.m, s.pc.inputs[0].provider) || !Wanted(s)))
  }

  ghost predicate QuietCore(m: State, generation: nat) {
    OnePerProvider(m) && (m.session.Some? ==> m.session.value.epoch <= generation)
  }

  ghost predicate QuietPc(s: Sys) {
    && (s.pc.Attaching? ==> s.pc.session.epoch <= s.generation)
    && (InScan(s.pc) ==> ScanInv(s))
    && (s.pc.Snapshot? && !Gone(s) ==> SettledBut(s.m, []))
    && (InRegister(s.pc) ==> RegisterInv(s))
  }

  ghost predicate QuietInv(s: Sys) {
    QuietCore(s.m, s.generation) && QuietPc(s)
  }

  lemma QuietMoves(s: Sys, t: Sys)
    requires QuietInv(s) && t.m == s.m && t.generation == s.generation && QuietPc(t)
    ensures QuietInv(t)
  {
  }

  /** What a setter call leaves alone, and that it cannot bring a lost session back. */
  lemma SetterFrame(s: Sys, a: Action)
    requires IsEnvironment(a) && !a.Crash? && !a.Cancel? && Enabled(s, a) && QuietCore(s.m, s.generation)
    ensures var t := Next(s, a);
            && t.pc == s.pc && t.m.attempts == s.m.attempts && QuietCore(t.m, t.generation)
            && (t.m.session == s.m.session || t.m.session.None?) && s.generation <= t.generation
            && (!Gone(t) ==> !Gone(s) && t.m.session == s.m.session && t.generation == s.generation)
  {
  }

  /** Without stirring, the attempts that the scan has passed go on fitting. */
  lemma PassedFits(s: Sys, a: Action, id: Digest)
    requires IsEnvironment(a) && !a.Crash? && !a.Cancel? && Enabled(s, a) && !Stirs(s, a)
    requires !Checked(s.pc) && !Gone(Next(s, a)) && QuietCore(s.m, s.generation)
    requires id in s.m.attempts && Passed(s, id) && Fits(s.m, s.m.attempts[id])
    ensures Fits(Next(s, a).m, s.m.attempts[id])
  {
    SetterFrame(s, a);
  }

  lemma ScanStays(s: Sys, t: Sys)
    requires InScan(s.pc) && QuietInv(s) && t.pc == s.pc && t.m.attempts == s.m.attempts && QuietCore(t.m, t.generation)
    requires !Gone(t) ==> !Gone(s) && forall id :: id in s.m.attempts && Passed(s, id) && Fits(s.m, s.m.attempts[id]) ==>
                                         Fits(t.m, s.m.attempts[id])
    ensures QuietInv(t)
  {
  }

  /** A setter call in the middle of the scan. */
  lemma ScanSetterQuiet(s: Sys, a: Action)
    requires InScan(s.pc) && QuietInv(s)
    requires IsEnvironment(a) && !a.Crash? && !a.Cancel? && Enabled(s, a) && !Stirs(s, a)
    ensures QuietInv(Next(s, a))
  {
    SetterFrame(s, a);
    var t := Next(s, a);
    forall id | !Gone(t) && id in s.m.attempts && Passed(s, id) && Fits(s.m, s.m.attempts[id])
      ensures Fits(t.m, s.m.attempts[id])
    {
      PassedFits(s, a, id);
    }
    ScanStays(s, t);
  }

  /** A setter call just before the snapshot. */
  lemma SnapshotSetterQuiet(s: Sys, a: Action)
    requires s.pc.Snapshot? && QuietInv(s)
    requires IsEnvironment(a) && !a.Crash? && !a.Cancel? && Enabled(s, a) && !Stirs(s, a)
    ensures QuietInv(Next(s, a))
  {
    SetterFrame(s, a);
    assert Ids([]) == {};
    var t := Next(s, a);
    forall id | !Gone(t) && id in t.m.attempts
      ensures Settled(t.m, t.m.attempts[id])
    {
      PassedFits(s, a, id);
    }
  }

  /** A setter call in the middle of the registration loop. */
  lemma LoopSetterQuiet(s: Sys, a: Action)
    requires InRegister(s.pc) && QuietInv(s)
    requires IsEnvironment(a) && !a.Crash? && !a.Cancel? && Enabled(s, a) && !Stirs(s, a)
    ensures QuietInv(Next(s, a))
  {
    SetterFrame(s, a);
    var t := Next(s, a);
    if !Gone(t) && Checked(s.pc) && !Unattempted(s.m, s.pc.inputs[0].provider) {
      StaysUnwanted(s, a);
    }
  }

  lemma StaysUnwanted(s: Sys, a: Action)
    requires Checked(s.pc) && !Wanted(s) && !Unattempted(s.m, s.pc.inputs[0].provider)
    requires IsEnvironment(a) && !a.Crash? && !a.Cancel? && Enabled(s, a) && !Stirs(s, a)
    requires !Gone(Next(s, a)) && LoopSession(s) && QuietCore(s.m, s.generation)
    ensures !Wanted(Next(s, a))
  {
    SetterFrame(s, a);
  }

  lemma SetterQuiet(s: Sys, a: Action)
    requires QuietInv(s) && Enabled(s, a) && IsEnvironment(a) && !Stirs(s, a)
    ensures QuietInv(Next(s, a))
  {
    if a.Crash? || a.Cancel? {
      assert Next(s, a).pc.Idle?;
    } else if InScan(s.pc) {
      ScanSetterQuiet(s, a);
    } else if s.pc.Snapshot? {
      SnapshotSetterQuiet(s, a);
    } else if InRegister(s.pc) {
      LoopSetterQuiet(s, a);
    } else {
      SetterFrame(s, a);
    }
  }

  lemma ConfigureQuiet(s: Sys, http: HttpClient, base: string, device: string, opens: bool)
    requires QuietCore(s.m, s.generation)
    ensures QuietCore(ConfigureLocked(s.m, s.disk, http, base, device, opens).state, s.generation)
  {
  }

  lemma StartQuiet(s: Sys)
    requires s.pc.Idle? && QuietInv(s) && s.m.attempts.Keys <= Ids(Entries(s.m))
    ensures QuietInv(NextStart(s))
  {
  }

  lemma NextConfigureQuiet(s: Sys, http: HttpClient, base: string, device: string, opens: bool)
    requires s.pc.Idle? && QuietInv(s)
    ensures QuietInv(NextConfigure(s, http, base, device, opens))
  {
    ConfigureQuiet(s, http, base, device, opens);
  }

  lemma AttachBeginQuiet(s: Sys, q: AttachRequest, opens: bool)
    requires s.pc.Idle? && QuietInv(s)
    ensures QuietInv(NextAttachBegin(s, q, opens))
  {
    ConfigureQuiet(s, q.http, q.base, q.device, opens);
    var t := NextAttachBegin(s, q, opens);
    assert t.m == s.m || t.m == ConfigureLocked(s.m, s.disk, q.http, q.base, q.device, opens).state;
  }

  lemma AttachEndQuiet(s: Sys)
    requires s.pc.Attaching? && QuietInv(s)
    ensures QuietInv(NextAttachEnd(s))
  {
    assert NextAttachEnd(s).m.attempts == s.m.attempts;
  }

  /** Moving past the head of the scan, once its attempt is settled or gone. */
  lemma Advance(m: State, todo: seq<Intent>)
    requires todo != [] && SettledBut(m, todo)
    requires todo[0].Id() in m.attempts ==> Settled(m, m.attempts[todo[0].Id()])
    ensures SettledBut(m, todo[1..])
  {
    assert todo == [todo[0]] + todo[1..];
    assert Ids(todo) == {todo[0].Id()} + Ids(todo[1..]);
  }

  lemma ScanQuiet(s: Sys)
    requires s.pc.Scan? && QuietInv(s)
    ensures QuietInv(NextScan(s))
  {
    var t := NextScan(s);
    assert Ids([]) == {};
    QuietMoves(s, t);
  }

  lemma ReadQuiet(s: Sys)
    requires s.pc.ReadAttempt? && s.pc.todo != [] && QuietInv(s)
    ensures QuietInv(NextRead(s))
  {
    var t := NextRead(s);
    if !Gone(s) && s.m.attempts[s.pc.todo[0].Id()].confirmed {
      Advance(s.m, s.pc.todo);
    }
    QuietMoves(s, t);
  }

  /** Turning to the revoke of the head relies on nothing. */
  lemma RevokeQuiet(s: Sys, t: Sys)
    requires InScan(s.pc) && QuietInv(s) && t.m == s.m && t.generation == s.generation
    requires t.pc.Idle? || (InScan(t.pc) && t.pc.todo == s.pc.todo && !t.pc.ReadAttempt? && !t.pc.Confirming?)
    ensures QuietInv(t)
  {
  }

  lemma InspectQuiet(s: Sys, valid: bool, active: bool)
    requires s.pc.Inspecting? && s.pc.todo != [] && QuietInv(s)
    ensures QuietInv(NextInspected(s, valid, active))
  {
    RevokeQuiet(s, NextInspected(s, valid, active));
  }

  lemma RevokedQuiet(s: Sys, success: bool)
    requires s.pc.Revoking? && s.pc.todo != [] && QuietInv(s)
    ensures QuietInv(NextRevoked(s, success))
  {
    RevokeQuiet(s, NextRevoked(s, success));
  }

  lemma RecheckQuiet(s: Sys)
    requires s.pc.Rechecking? && s.pc.todo != [] && QuietInv(s)
    ensures QuietInv(NextRecheck(s))
  {
    var t := NextRecheck(s);
    assert InScan(t.pc) && t.pc.todo == s.pc.todo;
    QuietMoves(s, t);
  }

  lemma ConfirmQuiet(s: Sys)
    requires s.pc.Confirming? && s.pc.todo != [] && QuietInv(s)
    ensures QuietInv(NextConfirm(s))
  {
    var m := Confirm(s.m, s.pc.todo[0].Id());
    assert OnePerProvider(m);
    if !Gone(s) {
      assert SettledBut(m, s.pc.todo);
      Advance(m, s.pc.todo);
    }
    assert NextConfirm(s) == s.(m := m, pc := Scan(s.pc.transport, s.pc.todo[1..]));
  }

  lemma DropQuiet(m: State, todo: seq<Intent>)
    requires todo != [] && OnePerProvider(m)
    ensures var n := m.(attempts := m.attempts - {todo[0].Id()});
            OnePerProvider(n) && (SettledBut(m, todo) ==> SettledBut(n, todo[1..]))
  {
    var n := m.(attempts := m.attempts - {todo[0].Id()});
    if SettledBut(m, todo) {
      assert SettledBut(n, todo);
      Advance(n, todo);
    }
  }

  lemma RemoveQuiet(s: Sys, save: SaveResult)
    requires s.pc.Removing? && s.pc.todo != [] && QuietInv(s)
    ensures QuietInv(NextRemove(s, save))
  {
    var t := NextRemove(s, save);
    if t.pc.Idle? {
      QuietMoves(s, t);
    } else {
      Removed(s, t);
    }
  }

  lemma Removed(s: Sys, t: Sys)
    requires s.pc.Removing? && s.pc.todo != [] && QuietInv(s) && t.generation == s.generation
    requires t.m == s.m.(journal := t.m.journal, attempts := s.m.attempts - {s.pc.todo[0].Id()})
    requires t.pc == Scan(s.pc.transport, s.pc.todo[1..])
    ensures QuietInv(t)
  {
    DropQuiet(s.m, s.pc.todo);
  }

  lemma SnapshotQuiet(s: Sys, order: seq<TokenInput>)
    requires s.pc.Snapshot? && Enumerates(order, s.m.desired) && QuietInv(s)
    ensures QuietInv(NextSnapshot(s, order))
  {
    assert Ids([]) == {};
  }

  /** An input with an attempt is found unregistered only while it is not wanted. */
  lemma UnregisteredIsUnwanted(s: Sys)
    requires s.pc.Register? && s.pc.inputs != [] && LoopSession(s) && !Gone(s)
    requires SettledAmong(s.m, s.pc.session.epoch, s.pc.inputs)
    requires !AlreadyRegistered(s.m, s.generation, s.pc.inputs[0].provider)
    ensures Unattempted(s.m, s.pc.inputs[0].provider) || !StillDesired(s.m, s.generation, s.pc.session, s.pc.inputs[0])
  {
    forall id | id in s.m.attempts && s.m.attempts[id].provider == s.pc.inputs[0].provider
      ensures !StillDesired(s.m, s.generation, s.pc.session, s.pc.inputs[0])
    {
      assert !Keep(s.m, s.generation, id);
    }
  }

  /** Within the loop: the same inputs ahead, or fewer, and no check relied on. */
  lemma LoopMoves(s: Sys, t: Sys)
    requires InRegister(s.pc) && QuietInv(s) && t.m == s.m && t.generation == s.generation
    requires InRegister(t.pc) && t.pc.session == s.pc.session
    requires DistinctProviders(t.pc.inputs) && Suffix(Ahead(t.pc), Ahead(s.pc))
    requires Checked(t.pc) && !Gone(t) ==> Unattempted(t.m, t.pc.inputs[0].provider) || !Wanted(t)
    ensures QuietInv(t)
  {
  }

  predicate Suffix(a: seq<TokenInput>, b: seq<TokenInput>) {
    a == b || (b != [] && a == b[1..])
  }

  lemma RegisterQuiet(s: Sys)
    requires s.pc.Register? && QuietInv(s)
    ensures QuietInv(NextRegister(s))
  {
    if s.pc.inputs == [] {
      QuietMoves(s, s.(pc := Finishing));
    } else {
      if !Gone(s) && !AlreadyRegistered(s.m, s.generation, s.pc.inputs[0].provider) {
        UnregisteredIsUnwanted(s);
      }
      LoopMoves(s, NextRegister(s));
    }
  }

  /** A new attempt for a provider that has none keeps the others unique and settled. */
  lemma AttemptAdded(m: State, n: State, id: Digest, inputs: seq<TokenInput>)
    requires OnePerProvider(m) && inputs != [] && DistinctProviders(inputs)
    requires id !in m.attempts && id in n.attempts && n.attempts[id].provider == inputs[0].provider
    requires n.attempts == m.attempts[id := n.attempts[id]] && Unattempted(m, inputs[0].provider)
    ensures OnePerProvider(n)
    ensures forall epoch :: SettledAmong(m, epoch, inputs) ==> SettledAmong(n, epoch, inputs[1..])
  {
  }

  lemma JournalQuiet(s: Sys, secret: string, save: SaveResult)
    requires s.pc.RegJournaling? && s.pc.inputs != [] && secret !in s.used && QuietInv(s) && Digest(secret) !in s.m.attempts
    ensures QuietInv(NextJournal(s, secret, save))
  {
    var t := NextJournal(s, secret, save);
    if t.pc.Idle? {
      assert t.m == s.m;
    } else {
      assert !Gone(s);
      AttemptAdded(s.m, t.m, Digest(secret), s.pc.inputs);
    }
  }

  lemma RegInspectedQuiet(s: Sys, valid: bool)
    requires s.pc.RegInspecting? && QuietInv(s)
    ensures QuietInv(NextRegInspected(s, valid))
  {
    var t := NextRegInspected(s, valid);
    if valid { LoopMoves(s, t); } else { QuietMoves(s, t); }
  }

  lemma PutQuiet(s: Sys)
    requires s.pc.RegIssuing? && s.pc.inputs != [] && s.m.journal.Some? && QuietInv(s)
    ensures QuietInv(NextPut(s))
  {
    LoopMoves(s, NextPut(s));
  }

  lemma PutAnsweredQuiet(s: Sys, success: bool)
    requires s.pc.RegPutting? && QuietInv(s)
    ensures QuietInv(NextPutAnswered(s, success))
  {
    var t := NextPutAnswered(s, success);
    if success { LoopMoves(s, t); } else { QuietMoves(s, t); }
  }

  lemma RegRecheckQuiet(s: Sys)
    requires s.pc.RegRechecking? && s.pc.inputs != [] && QuietInv(s)
    ensures QuietInv(NextRegRecheck(s))
  {
    LoopMoves(s, NextRegRecheck(s));
  }

  lemma RegConfirmQuiet(s: Sys)
    requires s.pc.RegConfirming? && s.pc.inputs != [] && QuietInv(s)
    ensures QuietInv(NextRegConfirm(s))
  {
    var m := Confirm(s.m, s.pc.id);
    assert OnePerProvider(m);
    assert Gone(s) || SettledAmong(m, s.pc.session.epoch, s.pc.inputs[1..]);
  }

  lemma ScanStepQuiet(s: Sys, a: Action)
    requires IsScanStep(a) && Enabled(s, a) && QuietInv(s) && s.m.attempts.Keys <= Ids(Entries(s.m))
    ensures QuietInv(Next(s, a))
  {
    match a
    case StartRun => StartQuiet(s);
    case StepScan => ScanQuiet(s);
    case StepRead => ReadQuiet(s);
    case InspectAnswer(valid, active) => InspectQuiet(s, valid, active);
    case StepRecheck => RecheckQuiet(s);
    case StepConfirm => ConfirmQuiet(s);
    case RevokeAnswer(success) => RevokedQuiet(s, success);
  }

  lemma LoopStepQuiet(s: Sys, a: Action)
    requires (IsRegisterStep(a) || a.IssuePut?) && Enabled(s, a) && QuietInv(s)
    ensures QuietInv(Next(s, a))
  {
    match a
    case StepSnapshot(order) => SnapshotQuiet(s, order);
    case StepRegister => RegisterQuiet(s);
    case RegInspectAnswer(valid) => RegInspectedQuiet(s, valid);
    case IssuePut => PutQuiet(s);
    case PutAnswer(success) => PutAnsweredQuiet(s, success);
    case StepRegRecheck => RegRecheckQuiet(s);
    case StepRegConfirm => RegConfirmQuiet(s);
    case StepFinish => FinishQuiet(s);
  }

  lemma FinishQuiet(s: Sys)
    requires s.pc.Finishing? && QuietInv(s)
    ensures QuietInv(NextFinish(s))
  {
  }

  lemma QuietKeeps(s: Sys, a: Action)
    requires Inv(s) && QuietInv(s) && Enabled(s, a) && !Stirs(s, a)
    ensures QuietInv(Next(s, a))
  {
    if IsEnvironment(a) { SetterQuiet(s, a); }
    else if IsScanStep(a) { ScanStepQuiet(s, a) by { InvStatus(s); } }
    else if IsRegisterStep(a) || a.IssuePut? { LoopStepQuiet(s, a); }
    else if a.Configure? { NextConfigureQuiet(s, a.http, a.base, a.device, a.opens); }
    else if a.AttachBegin? { AttachBeginQuiet(s, a.request, a.opens); }
    else if a.AttachEnd? { AttachEndQuiet(s); }
    else if a.StepRemove? { RemoveQuiet(s, a.save); }
    else { FreshId(s, a.secret); JournalQuiet(s, a.secret, a.save); }
  }

  lemma FreshId(s: Sys, secret: string)
    requires Inv(s) && secret !in s.used
    ensures Digest(secret) !in s.m.attempts
  {
    assert Digest(secret) !in Ids(Entries(s.m));
  }

  lemma {:induction false} QuietRunInv(run: seq<Sys>, i: nat)
    requires IsQuietRun(run) && i < |run|
    ensures QuietInv(run[i])
  {
    if i > 0 {
      QuietRunInv(run, i - 1);
      QuietRunIsRun(run);
      RunInv(run, i - 1);
      var s, t := run[i - 1], run[(i - 1) + 1];
      assert QuietStep(s, t);
      var a :| Enabled(s, a) && t == Next(s, a) && !Stirs(s, a);
      QuietKeeps(s, a);
    }
  }

  /** One attempt per provider, in every state of every run without a stirring setter call. */
  lemma OneAttemptPerProvider(run: seq<Sys>, i: nat, x: Digest, y: Digest)
    requires IsQuietRun(run) && i < |run|
    requires x in run[i].m.attempts && y in run[i].m.attempts
    requires run[i].m.attempts[x].provider == run[i].m.attempts[y].provider
    ensures x == y
  {
    QuietRunInv(run, i);
  }

  /** A matching digest means the very same input: provider and platform hold no separator. */
  lemma InputDigestInjective(a: TokenInput, b: TokenInput)
    requires ValidInput(a) && ValidInput(b) && a.provider == b.provider
    requires InputDigest(a) == InputDigest(b)
    ensures a == b
  {
    var n := |a.provider| + 1;
    var x, y := a.platform + ":" + a.token, b.platform + ":" + b.token;
    assert InputDigest(a).text == (a.provider + ":") + x && InputDigest(b).text == (b.provider + ":") + y;
    assert x == InputDigest(a).text[n..] && y == InputDigest(b).text[n..];
    assert x[|a.platform|] == ':' && y[|b.platform|] == ':';
    PlatformHasNoColon(a.platform);
    PlatformHasNoColon(b.platform);
    assert |a.platform| == |b.platform|;
    assert a.platform == x[..|a.platform|] && b.platform == y[..|b.platform|];
    assert a.token == x[|a.platform| + 1..] && b.token == y[|b.platform| + 1..];
  }

  lemma PlatformHasNoColon(platform: string)
    requires platform in {"ios", "android", "harmony"}
    ensures ':' !in platform
  {
  }

  // ---------- what `registered` means ----------

  function Providers(m: State, ids: set<Digest>): set<string>
    requires ids <= m.attempts.Keys
  {
    set id | id in ids :: m.attempts[id].provider
  }

  lemma {:induction false} ProvidersSize(m: State, ids: set<Digest>)
    requires ids <= m.attempts.Keys && OnePerProvider(m)
    ensures |Providers(m, ids)| == |ids|
    decreases |ids|
  {
    if ids == {} {
      assert Providers(m, ids) == {};
    } else {
      var id :| id in ids;
      ProvidersSize(m, ids - {id});
      assert Providers(m, ids) == Providers(m, ids - {id}) + {m.attempts[id].provider};
      assert m.attempts[id].provider !in Providers(m, ids - {id});
    }
  }

  lemma SameSizeSubset<T>(a: set<T>, b: set<T>)
    requires a <= b && |a| == |b|
    ensures a == b
  {
    assert b == a + (b - a);
    assert |b - a| == 0;
  }

  /** Every attempt is confirmed, of the current session and for the input desired now. */
  ghost predicate AllForNow(s: Sys) {
    && s.m.permission && s.m.session.Some? && s.m.session.value.epoch == s.generation
    && forall id :: id in s.m.attempts ==>
         && s.m.attempts[id].confirmed && s.m.attempts[id].epoch == s.generation
         && s.m.attempts[id].provider in s.m.desired
         && s.m.attempts[id].digest == InputDigest(s.m.desired[s.m.attempts[id].provider])
  }

  lemma RegisteredIsForNow(s: Sys)
    requires Registered(s.m, s.generation) == s.m.attempts.Keys
    requires s.m.permission && s.m.session.Some? && Current(s.m.session.value, s.generation)
    ensures AllForNow(s)
  {
    forall id | id in s.m.attempts
      ensures s.m.attempts[id].confirmed && Matches(s.m, s.generation, s.m.attempts[id])
    {
      assert id in Registered(s.m, s.generation);
    }
  }

  /** Status `registered` pairs the desired providers, the attempts and the journal one to one:
      each desired provider has exactly one attempt, confirmed, of the current session and of the
      desired token, and the journal holds these bindings and nothing else. */
  lemma RegisteredMeansBijection(s: Sys)
    requires Inv(s) && OnePerProvider(s.m)
    requires StatusOf(s.m, s.generation).phase == AllRegistered
    ensures Registered(s.m, s.generation) == s.m.attempts.Keys == Ids(Entries(s.m))
    ensures Providers(s.m, s.m.attempts.Keys) == s.m.desired.Keys
    ensures |Entries(s.m)| == |s.m.desired|
    ensures AllForNow(s)
  {
    InvStatus(s);
    var registered := Registered(s.m, s.generation);
    SameSizeSubset(registered, Ids(Entries(s.m)));
    ProvidersSize(s.m, registered);
    SameSizeSubset(Providers(s.m, registered), s.m.desired.Keys);
    RegisteredIsForNow(s);
  }

  /** So in every state of such a run, status `registered` means that bijection. */
  lemma RegisteredInQuietRuns(run: seq<Sys>, i: nat)
    requires IsQuietRun(run) && i < |run|
    requires StatusOf(run[i].m, run[i].generation).phase == AllRegistered
    ensures var s := run[i];
            && OnePerProvider(s.m)
            && Registered(s.m, s.generation) == s.m.attempts.Keys == Ids(Entries(s.m))
            && Providers(s.m, s.m.attempts.Keys) == s.m.desired.Keys
            && |Entries(s.m)| == |s.m.desired| && AllForNow(s)
  {
    QuietRunIsRun(run);
    RunInv(run, i);
    QuietRunInv(run, i);
    RegisteredMeansBijection(run[i]);
  }
}
