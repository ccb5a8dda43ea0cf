/** What the register PUTs carry: valid inputs only, and for each binding the very input that its attempt
    stands for. So what counts as registered was sent with the token desired now. */
module PushTraffic {
  import opened Prelude
  import opened PushModel
  import opened PushSafety
  import opened PushProviders

  predicate ForInput(a: Attempt, input: TokenInput) {
    a.provider == input.provider && a.digest == InputDigest(input)
  }

  ghost predicate ValidDesires(desired: map<string, TokenInput>) {
    forall p :: p in desired ==> desired[p].provider == p && ValidInput(desired[p])
  }

  ghost predicate AllValid(inputs: seq<TokenInput>) {
    forall i :: 0 <= i < |inputs| ==> ValidInput(inputs[i])
  }

  ghost predicate ValidPuts(puts: set<Put>) {
    forall p :: p in puts ==> ValidInput(p.input)
  }

  ghost predicate PutsMatch(attempts: map<Digest, Attempt>, puts: set<Put>) {
    forall p :: p in puts && p.id in attempts ==> ForInput(attempts[p.id], p.input)
  }

  ghost predicate LoopCarries(s: Sys) {
    && (InRegister(s.pc) ==> AllValid(s.pc.inputs))
    && (s.pc.RegIssuing? && s.pc.inputs != [] ==>
          s.pc.id in s.m.attempts && ForInput(s.m.attempts[s.pc.id], s.pc.inputs[0]))
  }

  ghost predicate Carries(s: Sys) {
    ValidDesires(s.m.desired) && ValidPuts(s.net.puts) && PutsMatch(s.m.attempts, s.net.puts) && LoopCarries(s)
  }

  // ---------- every step keeps it ----------

  /** Attempts only go, or change in their confirmation. */
  predicate Lessens(m: map<Digest, Attempt>, n: map<Digest, Attempt>) {
    forall id :: id in n ==> id in m && n[id].provider == m[id].provider && n[id].digest == m[id].digest
  }

  lemma CarriesStays(s: Sys, t: Sys)
    requires Carries(s) && t.m.desired == s.m.desired && Lessens(s.m.attempts, t.m.attempts) && t.net.puts == s.net.puts
    requires InRegister(t.pc) ==> InRegister(s.pc) && Suffix(t.pc.inputs, s.pc.inputs) && !t.pc.RegIssuing?
    ensures Carries(t)
  {
  }

  lemma EnvironmentCarries(s: Sys, a: Action)
    requires IsEnvironment(a) && Enabled(s, a) && Carries(s)
    ensures Carries(Next(s, a))
  {
    var t := Next(s, a);
    assert t.net == s.net && (t.pc == s.pc || t.pc.Idle?) && (t.m.attempts == s.m.attempts || t.m.attempts == map[]);
    assert a.Crash? || t.m.attempts == s.m.attempts;
  }

  lemma ConfigureLessens(m: State, disk: map<Root, seq<Intent>>, http: HttpClient, base: string, device: string, opens: bool)
    ensures var n := ConfigureLocked(m, disk, http, base, device, opens).state;
            n.desired == m.desired && Lessens(m.attempts, n.attempts)
  {
  }

  lemma OuterCarries(s: Sys, a: Action)
    requires (a.Configure? || a.AttachBegin? || a.AttachEnd?) && Enabled(s, a) && Carries(s)
    ensures Carries(Next(s, a))
  {
    match a
    case Configure(http, base, device, opens) => ConfigureCarries(s, http, base, device, opens);
    case AttachBegin(q, opens) => AttachBeginCarries(s, q, opens);
    case AttachEnd => CarriesStays(s, NextAttachEnd(s));
  }

  lemma ConfigureCarries(s: Sys, http: HttpClient, base: string, device: string, opens: bool)
    requires s.pc.Idle? && Carries(s)
    ensures Carries(NextConfigure(s, http, base, device, opens))
  {
    ConfigureLessens(s.m, s.disk, http, base, device, opens);
    CarriesStays(s, NextConfigure(s, http, base, device, opens));
  }

  lemma AttachBeginCarries(s: Sys, q: AttachRequest, opens: bool)
    requires s.pc.Idle? && Carries(s)
    ensures Carries(NextAttachBegin(s, q, opens))
  {
    ConfigureLessens(s.m, s.disk, q.http, q.base, q.device, opens);
    CarriesStays(s, NextAttachBegin(s, q, opens));
  }

  lemma ScanCarries(s: Sys)
    requires s.pc.Scan? && Carries(s)
    ensures Carries(NextScan(s))
  {
    CarriesStays(s, NextScan(s));
  }

  lemma ReadCarries(s: Sys)
    requires s.pc.ReadAttempt? && s.pc.todo != [] && Carries(s)
    ensures Carries(NextRead(s))
  {
    CarriesStays(s, NextRead(s));
  }

  lemma InspectedCarries(s: Sys, valid: bool, active: bool)
    requires s.pc.Inspecting? && s.pc.todo != [] && Carries(s)
    ensures Carries(NextInspected(s, valid, active))
  {
    CarriesStays(s, NextInspected(s, valid, active));
  }

  lemma RecheckCarries(s: Sys)
    requires s.pc.Rechecking? && s.pc.todo != [] && Carries(s)
    ensures Carries(NextRecheck(s))
  {
    CarriesStays(s, NextRecheck(s));
  }

  lemma ConfirmCarries(s: Sys)
    requires s.pc.Confirming? && s.pc.todo != [] && Carries(s)
    ensures Carries(NextConfirm(s))
  {
    CarriesStays(s, NextConfirm(s));
  }

  lemma RevokedCarries(s: Sys, success: bool)
    requires s.pc.Revoking? && s.pc.todo != [] && Carries(s)
    ensures Carries(NextRevoked(s, success))
  {
    CarriesStays(s, NextRevoked(s, success));
  }

  lemma ScanStepCarries(s: Sys, a: Action)
    requires (IsScanStep(a) || a.StepRemove?) && Enabled(s, a) && Carries(s)
    ensures Carries(Next(s, a))
  {
    match a
    case StartRun => CarriesStays(s, NextStart(s));
    case StepScan => ScanCarries(s);
    case StepRead => ReadCarries(s);
    case InspectAnswer(valid, active) => InspectedCarries(s, valid, active);
    case StepRecheck => RecheckCarries(s);
    case StepConfirm => ConfirmCarries(s);
    case RevokeAnswer(success) => RevokedCarries(s, success);
    case StepRemove(save) => RemoveCarries(s, save);
  }

  lemma RemoveCarries(s: Sys, save: SaveResult)
    requires s.pc.Removing? && s.pc.todo != [] && Carries(s)
    ensures Carries(NextRemove(s, save))
  {
    CarriesStays(s, NextRemove(s, save));
  }

  lemma SnapshotCarries(s: Sys, order: seq<TokenInput>)
    requires s.pc.Snapshot? && Enumerates(order, s.m.desired) && Carries(s)
    ensures Carries(NextSnapshot(s, order))
  {
  }

  lemma JournalCarries(s: Sys, secret: string, save: SaveResult)
    requires s.pc.RegJournaling? && s.pc.inputs != [] && Carries(s) && secret !in s.used && PutsInv(s.net.puts, s.used)
    ensures Carries(NextJournal(s, secret, save))
  {
    assert forall p :: p in s.net.puts ==> p.id != Digest(secret);
  }

  lemma PutCarries(s: Sys)
    requires s.pc.RegIssuing? && s.pc.inputs != [] && s.m.journal.Some? && Carries(s)
    ensures Carries(NextPut(s))
  {
  }

  lemma RegConfirmCarries(s: Sys)
    requires s.pc.RegConfirming? && s.pc.inputs != [] && Carries(s)
    ensures Carries(NextRegConfirm(s))
  {
    CarriesStays(s, NextRegConfirm(s));
  }

  lemma RegisterCarries(s: Sys)
    requires s.pc.Register? && Carries(s)
    ensures Carries(NextRegister(s))
  {
    CarriesStays(s, NextRegister(s));
  }

  lemma RegRecheckCarries(s: Sys)
    requires s.pc.RegRechecking? && s.pc.inputs != [] && Carries(s)
    ensures Carries(NextRegRecheck(s))
  {
    CarriesStays(s, NextRegRecheck(s));
  }

  lemma LoopStepCarries(s: Sys, a: Action)
    requires IsRegisterStep(a) && Enabled(s, a) && Carries(s)
    ensures Carries(Next(s, a))
  {
    match a
    case StepSnapshot(order) => SnapshotCarries(s, order);
    case StepRegister => RegisterCarries(s);
    case RegInspectAnswer(valid) => CarriesStays(s, NextRegInspected(s, valid));
    case PutAnswer(success) => CarriesStays(s, NextPutAnswered(s, success));
    case StepRegRecheck => RegRecheckCarries(s);
    case StepRegConfirm => RegConfirmCarries(s);
    case StepFinish => CarriesStays(s, NextFinish(s));
  }

  lemma CarriesKeeps(s: Sys, a: Action)
    requires PutsInv(s.net.puts, s.used) && Carries(s) && Enabled(s, a)
    ensures Carries(Next(s, a))
  {
    if IsEnvironment(a) { EnvironmentCarries(s, a); }
    else if IsScanStep(a) || a.StepRemove? { ScanStepCarries(s, a); }
    else if IsRegisterStep(a) { LoopStepCarries(s, a); }
    else if a.StepJournal? { JournalCarries(s, a.secret, a.save); }
    else if a.IssuePut? { PutCarries(s); }
    else { OuterCarries(s, a); }
  }

  lemma {:induction false} RunCarries(run: seq<Sys>, i: nat)
    requires IsRun(run) && i < |run|
    ensures Carries(run[i])
  {
    if i > 0 {
      RunCarries(run, i - 1);
      RunInv(run, i - 1);
      var s, t := run[i - 1], run[(i - 1) + 1];
      assert Step(s, t);
      var a :| Enabled(s, a) && t == Next(s, a);
      CarriesKeeps(s, a);
    }
  }

  // ---------- what it means ----------

  /** Over every run, each PUT carries a valid input, to the device path of the namespace it was journaled
      in, and the attempt under its id, while there is one, is for that input. */
  lemma PutsCarryTheirInput(run: seq<Sys>, i: nat, p: Put)
    requires IsRun(run) && i < |run| && p in run[i].net.puts
    ensures ValidInput(p.input) && p.root.ns == Namespace(p.identity, p.device)
    ensures p.id in run[i].m.attempts ==>
              && run[i].m.attempts[p.id].provider == p.input.provider
              && run[i].m.attempts[p.id].digest == InputDigest(p.input)
  {
    RunCarries(run, i);
    RunInv(run, i);
  }

  /** What counts as registered was sent with the very input that is desired now. */
  lemma RegisteredIsDesired(run: seq<Sys>, i: nat, p: Put)
    requires IsRun(run) && i < |run| && p in run[i].net.puts && p.id in Registered(run[i].m, run[i].generation)
    ensures p.input.provider in run[i].m.desired && p.input == run[i].m.desired[p.input.provider]
  {
    RunCarries(run, i);
    var m := run[i].m;
    InputDigestInjective(p.input, m.desired[p.input.provider]);
  }
}
